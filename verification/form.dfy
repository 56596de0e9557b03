/**
 The `MenWellness` form component as a sequential state machine.

 Each user action and each server answer is one event applied atomically to
 the current state. A user action that talks to the server returns the request
 it sends next to the new state; the server's answer arrives later as its own
 event. The derived-filter effect is applied as part of every transition that
 changes the list or the search string, so the search view and the count are
 never stale between events.
 */
module Form {
  import opened Quotes

  /** The `type` of the banner: `''` when no banner is shown. */
  datatype Kind = Blank | Success | Error

  datatype Message = Message(text: string, kind: Kind)

  const NoMessage: Message := Message("", Blank)

  const FillAllFields: string := "Please fill in all fields before saving the quote."
  const QuoteSaved: string := "Your quote has been saved."
  const AddFailed: string := "Error adding quote"
  const QuoteDeleted: string := "Quote deleted successfully"
  const DeleteFailed: string := "Error deleting quote"
  const QuoteUpdated: string := "Quote updated successfully"
  const UpdateFailed: string := "Error updating quote"

  /** The component's state: the fetched list, the draft (`quoteData`), the
      search string, the derived view and its count, the banner and the
      confetti flag. */
  datatype State = State(
    quotes: seq<Quote>,
    draft: Quote,
    search: string,
    filtered: seq<Quote>,
    count: nat,
    message: Message,
    confetti: bool)

  /** The HTTP call an event issues, if any. `Update` carries the `_id` of the
      URL and the three fields of the body. */
  datatype Request =
    | NoRequest
    | FetchAll
    | Create(record: Quote)
    | Update(id: string, topic: string, quote: string, author: string)
    | Delete(id: string)

  /** The server's answer to a request that returns data. */
  datatype Response<T> = Ok(value: T) | Failed

  datatype Step = Step(state: State, request: Request)

  /** The derived view agrees with the list and the search string. */
  predicate Consistent(s: State) {
    s.filtered == Filter(s.quotes, s.search) && s.count == |s.filtered|
  }

  /** The draft has a server identifier, so the form is in update mode. */
  function Editing(s: State): (r: bool)
    ensures r <==> |s.draft.id| > 0
    ensures s.draft.id == EmptyDraft.id ==> !r
  {
    s.draft.id != ""
  }

  /** The derived-filter effect: recomputes the view and the count from the list and the search string. */
  function Rederive(s: State): (r: State)
    ensures Consistent(r)
    ensures forall q :: q in r.filtered <==> q in s.quotes && Matches(q, s.search)
    ensures r.quotes == s.quotes && r.search == s.search && r.draft == s.draft
    ensures r.message == s.message && r.confetti == s.confetti
  {
    var view := Filter(s.quotes, s.search);
    s.(filtered := view, count := |view|)
  }

  /** `showMessage`: replaces the banner; the timed clear is the `ClearMessage` event. */
  function ShowMessage(s: State, text: string, kind: Kind): (r: State)
    ensures r.message.text == text && r.message.kind == kind
    ensures r.quotes == s.quotes && r.draft == s.draft && r.search == s.search
    ensures r.filtered == s.filtered && r.count == s.count && r.confetti == s.confetti
  {
    s.(message := Message(text, kind))
  }

  /** The state on mount, and the fetch the mount effect issues. */
  function Mount(): (r: Step)
    ensures Consistent(r.state)
    ensures r.state.quotes == [] && r.state.draft == EmptyDraft && r.state.search == ""
    ensures r.state.count == 0 && r.state.message == NoMessage && !r.state.confetti
    ensures r.request == FetchAll
  {
    Step(Rederive(State([], EmptyDraft, "", [], 0, NoMessage, false)), FetchAll)
  }

  /** `handleChange`: one input of the form was edited. */
  function HandleChange(s: State, f: Field, value: string): (r: State)
    ensures Get(r.draft, f) == value
    ensures forall g :: g != f ==> Get(r.draft, g) == Get(s.draft, g)
    ensures r.draft.id == s.draft.id
    ensures r.quotes == s.quotes && r.search == s.search && r.filtered == s.filtered
    ensures r.count == s.count && r.message == s.message && r.confetti == s.confetti
  {
    s.(draft := SetField(s.draft, f, value))
  }

  /** `handleSearch` followed by the derived-filter effect. */
  function HandleSearch(s: State, value: string): (r: State)
    ensures r.search == value && Consistent(r)
    ensures forall q :: q in r.filtered <==> q in s.quotes && Matches(q, value)
    ensures r.quotes == s.quotes && r.draft == s.draft
    ensures r.message == s.message && r.confetti == s.confetti
  {
    Rederive(s.(search := value))
  }

  /** `addQuote` up to the request: validates, then issues the create. */
  function AddQuote(s: State): (r: Step)
    ensures !Complete(s.draft) ==> r.request == NoRequest
    ensures !Complete(s.draft) ==> r.state.message == Message(FillAllFields, Error)
    ensures !Complete(s.draft) ==> r.state == ShowMessage(s, FillAllFields, Error)
    ensures Complete(s.draft) ==> r.state == s && r.request == Create(s.draft)
  {
    if !Complete(s.draft) then Step(ShowMessage(s, FillAllFields, Error), NoRequest)
    else Step(s, Create(s.draft))
  }

  /** `updateQuote` up to the request: no validation, sends the draft's fields. */
  function UpdateQuote(s: State): (r: Step)
    ensures r.state == s
    ensures r.request.Update? && r.request.id == s.draft.id
    ensures r.request.topic == s.draft.topic && r.request.quote == s.draft.quote
    ensures r.request.author == s.draft.author
  {
    Step(s, Update(s.draft.id, s.draft.topic, s.draft.quote, s.draft.author))
  }

  /** The form's button: "Update Quote" when the draft has an `_id`, "Save Quote" otherwise. */
  function Submit(s: State): (r: Step)
    ensures Editing(s) ==>
      r.state == s && r.request == Update(s.draft.id, s.draft.topic, s.draft.quote, s.draft.author)
    ensures !Editing(s) && Complete(s.draft) ==> r.state == s && r.request == Create(s.draft)
    ensures !Editing(s) && !Complete(s.draft) ==>
      && r.request == NoRequest
      && r.state.message == Message(FillAllFields, Error)
      && r.state.quotes == s.quotes && r.state.draft == s.draft
    ensures r.request != NoRequest ==> r.state == s
  {
    if Editing(s) then UpdateQuote(s) else AddQuote(s)
  }

  /** The answer to `GET /api/quotes`: the list is replaced on success; a failure is only logged. */
  function FetchCompleted(s: State, response: Response<seq<Quote>>): (r: State)
    ensures response.Failed? ==> r == s
    ensures response.Ok? ==> r.quotes == response.value && Consistent(r)
    ensures r.search == s.search && r.draft == s.draft
    ensures r.message == s.message && r.confetti == s.confetti
  {
    match response
    case Ok(list) => Rederive(s.(quotes := list))
    case Failed => s
  }

  /** The answer to `POST /api/quotes`. */
  function CreateCompleted(s: State, response: Response<Quote>): (r: State)
    ensures response.Ok? ==>
      && |r.quotes| == |s.quotes| + 1
      && r.quotes[..|s.quotes|] == s.quotes
      && r.quotes[|s.quotes|] == response.value
      && r.draft == EmptyDraft
      && r.confetti
      && r.message == Message(QuoteSaved, Success)
      && r.search == s.search
      && Consistent(r)
    ensures response.Failed? ==> r == ShowMessage(s, AddFailed, Error)
  {
    match response
    case Ok(created) =>
      var added := Rederive(s.(quotes := s.quotes + [created], draft := EmptyDraft, confetti := true));
      ShowMessage(added, QuoteSaved, Success)
    case Failed => ShowMessage(s, AddFailed, Error)
  }

  /** The answer to `PUT /api/quotes/{id}`: on success the list is re-fetched, not merged. */
  function UpdateCompleted(s: State, ok: bool): (r: Step)
    ensures ok ==>
      && r.request == FetchAll
      && r.state.draft == EmptyDraft
      && r.state.message == Message(QuoteUpdated, Success)
      && r.state.quotes == s.quotes && r.state.search == s.search
      && r.state.filtered == s.filtered && r.state.count == s.count
      && r.state.confetti == s.confetti
    ensures !ok ==> r.request == NoRequest && r.state == ShowMessage(s, UpdateFailed, Error)
  {
    if ok then Step(ShowMessage(s.(draft := EmptyDraft), QuoteUpdated, Success), FetchAll)
    else Step(ShowMessage(s, UpdateFailed, Error), NoRequest)
  }

  /** The Delete button of a listed quote: issues `DELETE /api/quotes/{id}`. */
  function DeleteQuote(s: State, id: string): (r: Step)
    ensures r.state == s && r.request == Delete(id)
  {
    Step(s, Delete(id))
  }

  /** The answer to `DELETE /api/quotes/{id}`. */
  function DeleteCompleted(s: State, id: string, ok: bool): (r: State)
    ensures ok ==>
      && (forall q :: q in r.quotes <==> q in s.quotes && q.id != id)
      && (forall q :: multiset(r.quotes)[q] == if q.id == id then 0 else multiset(s.quotes)[q])
      && r.message == Message(QuoteDeleted, Success)
      && r.draft == s.draft && r.search == s.search && r.confetti == s.confetti
      && Consistent(r)
    ensures !ok ==> r == ShowMessage(s, DeleteFailed, Error)
  {
    if ok then ShowMessage(Rederive(s.(quotes := RemoveById(s.quotes, id))), QuoteDeleted, Success)
    else ShowMessage(s, DeleteFailed, Error)
  }

  /** The Edit button of a listed quote: loads the whole record, `_id` included, into the draft. */
  function Edit(s: State, q: Quote): (r: State)
    ensures r.draft == q
    ensures q.id != "" ==> Editing(r)
    ensures r.quotes == s.quotes && r.search == s.search && r.filtered == s.filtered
    ensures r.count == s.count && r.message == s.message && r.confetti == s.confetti
  {
    s.(draft := q)
  }

  /** The 5-second timer of `showMessage` firing. */
  function ClearMessage(s: State): (r: State)
    ensures r.message == NoMessage
    ensures r.quotes == s.quotes && r.draft == s.draft && r.search == s.search
    ensures r.filtered == s.filtered && r.count == s.count && r.confetti == s.confetti
  {
    s.(message := NoMessage)
  }

  /** The 10-second confetti timer firing. */
  function HideConfetti(s: State): (r: State)
    ensures !r.confetti
    ensures r.quotes == s.quotes && r.draft == s.draft && r.search == s.search
    ensures r.filtered == s.filtered && r.count == s.count && r.message == s.message
  {
    s.(confetti := false)
  }

  /** Everything that can happen to the component. */
  datatype Event =
    | FieldEdited(field: Field, value: string)
    | SearchEdited(search: string)
    | SubmitPressed
    | EditPressed(record: Quote)
    | DeletePressed(id: string)
    | FetchAnswered(list: Response<seq<Quote>>)
    | CreateAnswered(created: Response<Quote>)
    | UpdateAnswered(ok: bool)
    | DeleteAnswered(deleted: string, succeeded: bool)
    | MessageExpired
    | ConfettiExpired

  /** One event applied to the current state. */
  function Apply(s: State, e: Event): (r: Step)
    ensures Consistent(s) ==> Consistent(r.state)
    ensures r.state.quotes != s.quotes ==>
      || (e.FetchAnswered? && e.list.Ok?)
      || (e.CreateAnswered? && e.created.Ok?)
      || (e.DeleteAnswered? && e.succeeded)
    ensures r.state.draft != s.draft ==>
      || e.FieldEdited? || e.EditPressed?
      || (e.CreateAnswered? && e.created.Ok?)
      || (e.UpdateAnswered? && e.ok)
    ensures r.request != NoRequest ==>
      || e.SubmitPressed? || e.DeletePressed? || (e.UpdateAnswered? && e.ok)
  {
    match e
    case FieldEdited(f, v) => Step(HandleChange(s, f, v), NoRequest)
    case SearchEdited(v) => Step(HandleSearch(s, v), NoRequest)
    case SubmitPressed => Submit(s)
    case EditPressed(q) => Step(Edit(s, q), NoRequest)
    case DeletePressed(id) => DeleteQuote(s, id)
    case FetchAnswered(resp) => Step(FetchCompleted(s, resp), NoRequest)
    case CreateAnswered(resp) => Step(CreateCompleted(s, resp), NoRequest)
    case UpdateAnswered(ok) => UpdateCompleted(s, ok)
    case DeleteAnswered(id, ok) => Step(DeleteCompleted(s, id, ok), NoRequest)
    case MessageExpired => Step(ClearMessage(s), NoRequest)
    case ConfettiExpired => Step(HideConfetti(s), NoRequest)
  }

  /** The state after a sequence of events. */
  function Run(s: State, events: seq<Event>): State
    decreases |events|
  {
    if |events| == 0 then s else Run(Apply(s, events[0]).state, events[1..])
  }

  /** No sequence of events makes the search view or the count stale. */
  lemma {:induction false} RunKeepsConsistent(s: State, events: seq<Event>)
    requires Consistent(s)
    ensures Consistent(Run(s, events))
    decreases |events|
  {
    if |events| > 0 {
      RunKeepsConsistent(Apply(s, events[0]).state, events[1..]);
    }
  }

  /** Every state reachable from mount shows exactly the matching quotes, counted correctly. */
  lemma ReachableShowsMatches(events: seq<Event>)
    ensures var s := Run(Mount().state, events);
      && (forall q :: q in s.filtered <==> q in s.quotes && Matches(q, s.search))
      && s.count == |s.filtered|
  {
    RunKeepsConsistent(Mount().state, events);
  }
}
