# MenWellness quote form — a Dafny model

The repository is a single React component, `MenWellness`, in
`src/components/form.js`. It shows a list of inspirational quotes fetched from a
REST API. It lets the user search the list by topic, add a quote, edit one and
delete one. This project models that component as a sequential state machine
and proves how each event changes the state.

- `Text` (`text.dfy`): `toLowerCase` (ASCII letters only) and `includes`. `Contains`
  is proved to hold exactly when the search string occurs at some position.
- `Seqs` (`seqs.dfy`): `Keep`, the model of `Array.prototype.filter`, specified
  by membership and multiplicity and proved to distribute over concatenation.
  That last lemma is the order-preservation property.
- `Quotes` (`quotes.dfy`): the `Quote` record (`_id` is `id`), the three draft
  fields, the create guard, the topic search view `Filter` and the delete
  filter `RemoveById`.
- `Form` (`form.dfy`): the component `State`, which holds the list, the draft
  (`quoteData`), the search string, the filtered view, the result count, the
  banner and the confetti flag. Each handler is one pure function. A handler
  that calls the server returns a `Step`: the new state plus the HTTP `Request`
  it sends. The server's answer comes back later as its own event (`Ok`/`Failed`,
  or a success flag). `Apply` dispatches any `Event` and `Run` folds a sequence
  of events.
- `FormProps` (`form_props.dfy`): properties that span several events, plus two
  concrete scenarios: a case-insensitive search and a refused save.

The derived-filter effect (lines 26-32) is folded into every transition that
changes the list or the search string. `Consistent(s)` means the view equals
`Filter(quotes, search)` and the count equals its length. Every event preserves
`Consistent`, so every reachable state satisfies it.

A successful delete removes every listed quote with the deleted `_id`, not
just the first one, because the code removes by `filter` (line 65).

## Model

| member | source | states |
|---|---|---|
| Text.LowerChar | src/components/form.js:28 | the lower-cased character is never an upper-case ASCII letter; non-letters and lower-case letters pass through unchanged; an upper-case letter becomes the lower-case letter at the same place in the alphabet ('A' to 'a', …, 'Z' to 'z') |
| Text.Lower | src/components/form.js:28 | `toLowerCase` keeps the length and lower-cases each character at its own position |
| Text.LowerIdempotent | src/components/form.js:28 | lower-casing an already lower-cased string changes nothing |
| Text.Contains | src/components/form.js:28 | the left-to-right `includes` scan answers true exactly when the search string occurs as a contiguous block at some position of the string |
| Text.ContainsEmpty | src/components/form.js:28 | every string includes the empty string |
| Seqs.Keep | src/components/form.js:27-29 | `filter` returns no more elements than it is given; an element is in the result iff it was in the input and passes; each passing element keeps its multiplicity and failing ones are dropped |
| Seqs.KeepAppend | src/components/form.js:27-29 | filtering a concatenation gives the concatenation of the filtered parts, so survivors keep their relative order |
| Seqs.KeepAll | src/components/form.js:27-29 | when every element passes, the filter returns its input unchanged |
| Quotes.SetField | src/components/form.js:93-95 | editing a named input sets exactly that field to the typed value; the other two fields and the `_id` keep their values |
| Quotes.SetFieldLastWins | src/components/form.js:93-95 | two edits of the same input leave the later value |
| Quotes.SetFieldCommutes | src/components/form.js:93-95 | edits of two different inputs give the same draft in either order |
| Quotes.Complete | src/components/form.js:44 | the create guard (with JavaScript string truthiness) passes iff none of topic, quote, author is the empty string |
| Quotes.Matches | src/components/form.js:28 | a quote matches iff the lower-cased search occurs somewhere in its lower-cased topic; every quote matches the empty search |
| Quotes.Filter | src/components/form.js:26-30 | the search view holds exactly the quotes whose lower-cased topic includes the lower-cased search, each as often as in the list, and is never longer than the list |
| Quotes.RemoveById | src/components/form.js:65 | after a delete, a quote survives iff it was in the list and its `_id` differs from the deleted one; survivors keep their multiplicity |
| Quotes.FilterAppend | src/components/form.js:27-29 | the search view keeps the list's order |
| Quotes.RemoveByIdAppend | src/components/form.js:65 | delete keeps the survivors in list order |
| Quotes.RemoveAbsentId | src/components/form.js:65 | deleting an `_id` that no listed quote carries leaves the list as it was |
| Quotes.EmptySearchShowsAll | src/components/form.js:26-30 | an empty search shows the whole list |
| Quotes.MatchesIgnoresSearchCase | src/components/form.js:28 | a quote matches a search iff it matches the lower-cased search |
| Quotes.MatchesIgnoresTopicCase | src/components/form.js:28 | a quote matches iff it matches with its topic lower-cased |
| Quotes.FilterIgnoresSearchCase | src/components/form.js:26-30 | the search view for a string equals the view for its lower-cased form |
| Form.Editing | src/components/form.js:140 | the mode test `quoteData._id ?` is string truthiness: update mode iff the `_id` has at least one character, so the empty draft is in create mode |
| Form.Rederive | src/components/form.js:26-32 | the effect makes view and count agree with list and search: a quote is shown iff it is listed and matches; nothing else in the state changes |
| Form.ShowMessage | src/components/form.js:86-87 | `showMessage` sets the banner's text and type and leaves list, draft, search, view, count and confetti alone |
| Form.Mount | src/components/form.js:7-24 | the component starts with an empty list, an empty draft, an empty search, count 0, no banner, no confetti and a consistent view, and its mount effect issues the list fetch |
| Form.HandleChange | src/components/form.js:93-96 | a keystroke in one input sets only that draft field; the `_id`, the other fields and all other state are unchanged |
| Form.HandleSearch | src/components/form.js:98-100 | typing in the search bar stores the string and re-derives a consistent view of exactly the matching quotes; list, draft, banner and confetti are unchanged |
| Form.AddQuote | src/components/form.js:43-50 | with an empty topic, quote or author: error banner "Please fill in all fields…", no request, everything else unchanged; otherwise the draft is posted and nothing changes locally yet |
| Form.UpdateQuote | src/components/form.js:73-76 | update validates nothing: it PUTs the draft's topic, quote and author to the draft's `_id`, with no local change |
| Form.Submit | src/components/form.js:140-144 | a non-empty `_id` routes the button to update, which PUTs exactly the draft's topic, quote and author to that `_id`; an empty one routes to add, which posts the whole draft when complete; a rejected add issues no request and leaves list and draft unchanged; a request never changes local state before its answer |
| Form.FetchCompleted | src/components/form.js:34-41 | a successful fetch replaces the list and re-derives a consistent view; a failed fetch changes nothing and shows no banner |
| Form.CreateCompleted | src/components/form.js:49-59 | a successful create appends exactly the server's record at the end (old list is a prefix, length +1), empties the draft, starts the confetti and shows "Your quote has been saved."; a failure shows "Error adding quote" and changes nothing else |
| Form.UpdateCompleted | src/components/form.js:76-83 | a successful update issues a re-fetch without touching the list, empties the draft and shows "Quote updated successfully"; a failure shows "Error updating quote" and changes nothing else |
| Form.DeleteQuote | src/components/form.js:62-64 | the Delete button issues a DELETE for that `_id` and changes nothing locally |
| Form.DeleteCompleted | src/components/form.js:62-71 | a successful delete removes every quote with that `_id` and no other, re-derives the view and shows "Quote deleted successfully"; a failure shows "Error deleting quote" and changes nothing else |
| Form.Edit | src/components/form.js:156 | the Edit button loads the whole record, `_id` included, into the draft, so a record with an `_id` puts the form in update mode; nothing else changes |
| Form.ClearMessage | src/components/form.js:88-90 | the banner timer empties text and type and leaves the rest alone |
| Form.HideConfetti | src/components/form.js:55 | the confetti timer turns the effect off and leaves the rest alone |
| Form.Apply | src/components/form.js:109-156 | every event keeps the view consistent; only successful fetch, create and delete answers change the list; only field edits, Edit, and successful create or update change the draft; only submit, delete and a successful update send requests |
| Form.RunKeepsConsistent | src/components/form.js:26-32 | after any sequence of events, the view and count still agree with list and search |
| Form.ReachableShowsMatches | src/components/form.js:26-31 | in every state reachable from mount, a quote is shown iff it is listed and matches the search, and the count is the view's length |
| FormProps.CreateExtendsView | src/components/form.js:51 | after a successful create the view is the old view plus the new record at the end iff it matches the search |
| FormProps.DeleteUndoesCreate | src/components/form.js:50-66 | deleting the `_id` of a freshly created record whose `_id` was not yet listed restores the list, the view and the count |
| FormProps.DeleteKeepsOrder | src/components/form.js:65 | deleting from a list split in two gives the two pieces' survivors in order |
| FormProps.EditThenSubmitUpdates | src/components/form.js:140-156 | after Edit of a record with an `_id`, the button sends an update of that record's fields to that `_id` |
| FormProps.SubmitSendsIffComplete | src/components/form.js:43-50 | in create mode the button sends a request exactly when none of topic, quote, author is empty |
| FormProps.UpdateSkipsValidation | src/components/form.js:73-76 | in update mode even an all-empty draft is sent |
| FormProps.SaveReturnsToCreateMode | src/components/form.js:52-78 | after a successful create or update the draft has no `_id`, so the form is back in create mode |
| FormProps.UpdateThenFetchShowsServerList | src/components/form.js:76-78 | a successful update requests the list; once it arrives the state shows the server's list through the current search with an empty draft |
| FormProps.FailuresKeepData | src/components/form.js:34-84 | every failed answer leaves list, view, count, draft, search and confetti unchanged and sends nothing; failed create, update and delete show an error banner, a failed fetch leaves the banner |
| FormProps.SearchIgnoresCase | src/components/form.js:28 | searching "GRO" or "gro" shows the same quotes and count |
| FormProps.EmptySearchShowsEverything | src/components/form.js:26-31 | clearing the search shows the whole list and counts all of it |
| FormProps.GrowthScenario | src/components/form.js:26-31 | one fetched quote with topic "growth" and the search "GRO" give a view of that quote and a count of 1 |
| FormProps.IncompleteDraftScenario | src/components/form.js:44-47 | a draft with an empty topic and other fields "x", "y" is refused: no request, an error banner, list and draft unchanged |

## Left out

- HTTP is not modelled: axios, the fixed API URLs and the server are absent. Each call is a `Request` value and its outcome is an event input.
- Rendering is not modelled: JSX, CSS, `react-confetti`, `scrollIntoView` and `console.error` have no statable behaviour.
- Timer durations are not modelled. The 5-second banner clear and the 10-second confetti hide are the untimed events `MessageExpired` and `ConfettiExpired`. An older timer can clear a newer banner early; that race depends on real time and is not modelled.
- Concurrency is not modelled. Each event applies atomically to the current state, so overlapping requests and React's stale closures are absent. One example is `[...quotes, response.data]` reading a captured `quotes`.
- React effect timing is not modelled. There is a render between a list or search change and the effect's recompute. The model applies the recompute in the same transition.
- Text.Lower: lower-cases only the ASCII letters A–Z. JavaScript's `toLowerCase` also maps non-ASCII letters and a few multi-character cases.
- Text.LowerChar: ASCII only, for the same reason as `Text.Lower`.
- Quotes.SetField: covers only the three inputs the form renders (`topic`, `quote`, `author`). `handleChange` would also add any other `name` as a new key, but no rendered input has another name.
- Quote records always have four string fields. A server record with a missing `topic` would make `toLowerCase` throw; records with extra server fields are not modelled either.
