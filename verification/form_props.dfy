/**
 Properties of the form that relate several events: the mode switch between
 create and update, the error paths, delete as the inverse of create, and two
 concrete scenarios.
 */
module FormProps {
  import opened Text
  import opened Quotes
  import opened Form

  /** A successful create adds the new record to the search view exactly when it matches the search. */
  lemma CreateExtendsView(s: State, created: Quote)
    requires Consistent(s)
    ensures CreateCompleted(s, Ok(created)).filtered
      == s.filtered + (if Matches(created, s.search) then [created] else [])
  {
    FilterAppend(s.quotes, [created], s.search);
  }

  /** Deleting the identifier of a freshly created record restores the list and the view. */
  lemma DeleteUndoesCreate(s: State, created: Quote)
    requires Consistent(s)
    requires forall i :: 0 <= i < |s.quotes| ==> s.quotes[i].id != created.id
    ensures var r := DeleteCompleted(CreateCompleted(s, Ok(created)), created.id, true);
      r.quotes == s.quotes && r.filtered == s.filtered && r.count == s.count
  {
    RemoveByIdAppend(s.quotes, [created], created.id);
    RemoveAbsentId(s.quotes, created.id);
  }

  /** A successful delete keeps the survivors in their original order. */
  lemma DeleteKeepsOrder(s: State, id: string, xs: seq<Quote>, ys: seq<Quote>)
    requires s.quotes == xs + ys
    ensures DeleteCompleted(s, id, true).quotes == RemoveById(xs, id) + RemoveById(ys, id)
  {
    RemoveByIdAppend(xs, ys, id);
  }

  /** Edit switches the form to update mode: the next submit updates the loaded record. */
  lemma EditThenSubmitUpdates(s: State, q: Quote)
    requires q.id != ""
    ensures Submit(Edit(s, q)) == Step(Edit(s, q), Update(q.id, q.topic, q.quote, q.author))
  {
  }

  /** In create mode the button sends a request exactly when no input is empty. */
  lemma SubmitSendsIffComplete(s: State)
    requires !Editing(s)
    ensures Submit(s).request != NoRequest <==> forall f :: Get(s.draft, f) != ""
  {
  }

  /** Update mode does no field validation: even an all-empty record is sent. */
  lemma UpdateSkipsValidation(s: State, id: string)
    requires id != ""
    ensures Submit(Edit(s, Quote(id, "", "", ""))).request == Update(id, "", "", "")
  {
  }

  /** After a successful create or update the form is back in create mode. */
  lemma SaveReturnsToCreateMode(s: State, created: Quote)
    ensures !Editing(CreateCompleted(s, Ok(created)))
    ensures !Editing(UpdateCompleted(s, true).state)
  {
  }

  /** A successful update, once its re-fetch answers, shows the server's list through the current search. */
  lemma UpdateThenFetchShowsServerList(s: State, list: seq<Quote>)
    ensures var u := UpdateCompleted(s, true);
      && u.request == FetchAll
      && FetchCompleted(u.state, Ok(list)).quotes == list
      && FetchCompleted(u.state, Ok(list)).filtered == Filter(list, s.search)
      && FetchCompleted(u.state, Ok(list)).draft == EmptyDraft
  {
  }

  /** Every failed answer leaves the list, the view and the draft as they were; the
      failed fetch also leaves the banner, the others show an error banner. */
  lemma FailuresKeepData(s: State, e: Event)
    requires e == FetchAnswered(Failed) || e == CreateAnswered(Failed)
      || e == UpdateAnswered(false) || (e.DeleteAnswered? && !e.succeeded)
    ensures var r := Apply(s, e);
      && r.request == NoRequest
      && r.state.quotes == s.quotes && r.state.filtered == s.filtered
      && r.state.count == s.count && r.state.draft == s.draft
      && r.state.search == s.search && r.state.confetti == s.confetti
      && (e.FetchAnswered? ==> r.state.message == s.message)
      && (!e.FetchAnswered? ==> r.state.message.kind == Error)
  {
  }

  /** Changing the case of the search string does not change what is shown. */
  lemma SearchIgnoresCase(s: State, value: string)
    ensures HandleSearch(s, value).filtered == HandleSearch(s, Lower(value)).filtered
    ensures HandleSearch(s, value).count == HandleSearch(s, Lower(value)).count
  {
    FilterIgnoresSearchCase(s.quotes, value);
  }

  /** Clearing the search shows the whole list. */
  lemma EmptySearchShowsEverything(s: State)
    ensures HandleSearch(s, "").filtered == s.quotes
    ensures HandleSearch(s, "").count == |s.quotes|
  {
    EmptySearchShowsAll(s.quotes);
  }

  /** One quote with topic "growth" and the search "GRO": the view is that quote, counted once. */
  lemma GrowthScenario()
    ensures var q := Quote("1", "growth", "Q1", "A");
      var s := HandleSearch(FetchCompleted(Mount().state, Ok([q])), "GRO");
      s.filtered == [q] && s.count == 1
  {
    var q := Quote("1", "growth", "Q1", "A");
    assert Lower("GRO") == "gro";
    assert Lower("growth") == "growth";
    assert OccursAt("growth", "gro", 0);
    assert Matches(q, "GRO");
  }

  /** An empty topic blocks the save: no request, an error banner, the list and draft unchanged. */
  lemma IncompleteDraftScenario(s: State)
    requires s.draft == Quote("", "", "x", "y")
    ensures var r := Submit(s);
      && r.request == NoRequest
      && r.state.message.kind == Error
      && r.state.quotes == s.quotes && r.state.draft == s.draft
  {
  }
}
