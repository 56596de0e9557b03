/**
 The quote record, the form's draft fields, and the two list filters of the
 component: the topic search view and removal by identifier.
 */
module Quotes {
  import opened Text
  import opened Seqs

  /** A quote record. `id` is the server-assigned `_id`; it is empty for an unsaved draft. */
  datatype Quote = Quote(id: string, topic: string, quote: string, author: string)

  /** The all-empty draft the form starts with and returns to after a save. */
  const EmptyDraft: Quote := Quote("", "", "", "")

  /** The three inputs of the form, by their `name` attribute. */
  datatype Field = TopicField | QuoteField | AuthorField

  function Get(q: Quote, f: Field): string {
    match f
    case TopicField => q.topic
    case QuoteField => q.quote
    case AuthorField => q.author
  }

  /** `{ ...quoteData, [name]: value }`: replaces the one named field. */
  function SetField(q: Quote, f: Field, value: string): (r: Quote)
    ensures Get(r, f) == value
    ensures forall g :: g != f ==> Get(r, g) == Get(q, g)
    ensures r.id == q.id
  {
    match f
    case TopicField => q.(topic := value)
    case QuoteField => q.(quote := value)
    case AuthorField => q.(author := value)
  }

  /** A later edit of the same field overrides an earlier one. */
  lemma SetFieldLastWins(q: Quote, f: Field, v: string, w: string)
    ensures SetField(SetField(q, f, v), f, w) == SetField(q, f, w)
  {
  }

  /** Edits of two different fields can be made in either order. */
  lemma SetFieldCommutes(q: Quote, f: Field, g: Field, v: string, w: string)
    requires f != g
    ensures SetField(SetField(q, f, v), g, w) == SetField(SetField(q, g, w), f, v)
  {
  }

  /** The create guard `!topic || !quote || !author` negated: on strings, JavaScript
      truthiness is non-emptiness, so the guard passes iff no input is empty. */
  function Complete(q: Quote): (r: bool)
    ensures r <==> forall f :: Get(q, f) != ""
  {
    assert Get(q, TopicField) == q.topic && Get(q, QuoteField) == q.quote;
    assert Get(q, AuthorField) == q.author;
    q.topic != "" && q.quote != "" && q.author != ""
  }

  /** The search test: the lower-cased topic contains the lower-cased search string. */
  function Matches(q: Quote, search: string): (r: bool)
    ensures r <==> OccursIn(Lower(q.topic), Lower(search))
    ensures search == "" ==> r
  {
    assert search == "" ==> OccursAt(Lower(q.topic), Lower(search), 0);
    Contains(Lower(q.topic), Lower(search))
  }

  /** The search view: the quotes whose topic matches, in list order. */
  function Filter(quotes: seq<Quote>, search: string): (r: seq<Quote>)
    ensures |r| <= |quotes|
    ensures forall q :: q in r <==> q in quotes && Matches(q, search)
    ensures forall q :: multiset(r)[q] == if Matches(q, search) then multiset(quotes)[q] else 0
  {
    Keep(quotes, q => Matches(q, search))
  }

  /** The list after a delete: every quote whose `_id` differs from `id`, in list order. */
  function RemoveById(quotes: seq<Quote>, id: string): (r: seq<Quote>)
    ensures |r| <= |quotes|
    ensures forall q :: q in r <==> q in quotes && q.id != id
    ensures forall q :: multiset(r)[q] == if q.id == id then 0 else multiset(quotes)[q]
  {
    Keep(quotes, (q: Quote) => q.id != id)
  }

  /** The search view of a concatenation is the concatenation of the views. */
  lemma FilterAppend(xs: seq<Quote>, ys: seq<Quote>, search: string)
    ensures Filter(xs + ys, search) == Filter(xs, search) + Filter(ys, search)
  {
    KeepAppend(xs, ys, q => Matches(q, search));
  }

  /** Removal by identifier keeps the relative order of the survivors. */
  lemma RemoveByIdAppend(xs: seq<Quote>, ys: seq<Quote>, id: string)
    ensures RemoveById(xs + ys, id) == RemoveById(xs, id) + RemoveById(ys, id)
  {
    KeepAppend(xs, ys, (q: Quote) => q.id != id);
  }

  /** Removing an identifier that no quote carries changes nothing. */
  lemma RemoveAbsentId(quotes: seq<Quote>, id: string)
    requires forall i :: 0 <= i < |quotes| ==> quotes[i].id != id
    ensures RemoveById(quotes, id) == quotes
  {
    KeepAll(quotes, (q: Quote) => q.id != id);
  }

  /** The empty search matches every topic, so the view is the whole list. */
  lemma EmptySearchShowsAll(quotes: seq<Quote>)
    ensures Filter(quotes, "") == quotes
  {
    forall i | 0 <= i < |quotes|
      ensures Matches(quotes[i], "")
    {
      ContainsEmpty(Lower(quotes[i].topic));
    }
    KeepAll(quotes, q => Matches(q, ""));
  }

  /** Matching ignores the case of the search string. */
  lemma MatchesIgnoresSearchCase(q: Quote, search: string)
    ensures Matches(q, search) <==> Matches(q, Lower(search))
  {
    LowerIdempotent(search);
  }

  /** Matching ignores the case of the topic. */
  lemma MatchesIgnoresTopicCase(q: Quote, search: string)
    ensures Matches(q, search) <==> Matches(q.(topic := Lower(q.topic)), search)
  {
    LowerIdempotent(q.topic);
  }

  /** The search view does not depend on the case of the search string. */
  lemma {:induction false} FilterIgnoresSearchCase(quotes: seq<Quote>, search: string)
    ensures Filter(quotes, search) == Filter(quotes, Lower(search))
  {
    if |quotes| > 0 {
      MatchesIgnoresSearchCase(quotes[0], search);
      FilterIgnoresSearchCase(quotes[1..], search);
    }
  }
}
