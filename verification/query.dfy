/**
 * The query operations of the viewer: the date-range filters, the photo filter and
 * the text search. Each is an `Array.prototype.filter` over the full record list,
 * so each result is an order-preserving subsequence of it.
 */
module Query {
  import opened Wrappers
  import opened Archive

  /** `a` can be obtained from `b` by deleting elements, keeping the order. */
  predicate Subsequence<T(==)>(a: seq<T>, b: seq<T>)
  {
    if a == [] then true
    else if b == [] then false
    else (a[0] == b[0] && Subsequence(a[1..], b[1..])) || Subsequence(a, b[1..])
  }

  /** A subsequence uses each element at most as often as the original holds it. */
  lemma {:induction false} SubsequenceMultiset<T>(a: seq<T>, b: seq<T>)
    requires Subsequence(a, b)
    ensures multiset(a) <= multiset(b)
  {
    if a != [] {
      assert b == [b[0]] + b[1..];
      if a[0] == b[0] && Subsequence(a[1..], b[1..]) {
        SubsequenceMultiset(a[1..], b[1..]);
        assert a == [a[0]] + a[1..];
      } else {
        SubsequenceMultiset(a, b[1..]);
      }
    }
  }

  /** `Array.prototype.filter`. */
  function Filter(s: seq<Tweet>, keep: Tweet -> bool): (r: seq<Tweet>)
    ensures Subsequence(r, s)
    ensures forall x :: x in r <==> x in s && keep(x)
    ensures forall x :: multiset(r)[x] == if keep(x) then multiset(s)[x] else 0
  {
    if s == [] then []
    else
      assert s == [s[0]] + s[1..];
      if keep(s[0]) then [s[0]] + Filter(s[1..], keep)
      else
        var r := Filter(s[1..], keep);
        assert r != [] ==> Subsequence(r, s[1..]);
        r
  }

  /** The two date pickers; None stands for an empty field. */
  datatype DateRange = DateRange(start: Option<int>, end: Option<int>)

  const NoDates: DateRange := DateRange(None, None)

  /**
   * `new Date(field) <op> bound`: an empty field parses to an invalid date,
   * and every comparison against an invalid date is false.
   */
  predicate AtOrAfter(t: Tweet, bound: Option<int>)
  {
    bound.Some? && t.createdAt >= bound.value
  }

  predicate AtOrBefore(t: Tweet, bound: Option<int>)
  {
    bound.Some? && t.createdAt <= bound.value
  }

  /** The hook's date test: end missing, else start missing, else both bounds. */
  predicate InDateRange(t: Tweet, range: DateRange)
  {
    if range.end.None? then AtOrAfter(t, range.start)
    else if range.start.None? then AtOrBefore(t, range.end)
    else AtOrAfter(t, range.start) && AtOrBefore(t, range.end)
  }

  /** `filterTweetsByDateRange` of the hook. */
  function FilterByDateRange(all: seq<Tweet>, range: DateRange): (r: seq<Tweet>)
    ensures Subsequence(r, all)
    ensures range.start.Some? && range.end.None? ==>
      forall t :: t in r <==> t in all && t.createdAt >= range.start.value
    ensures range.start.None? && range.end.Some? ==>
      forall t :: t in r <==> t in all && t.createdAt <= range.end.value
    ensures range.start.Some? && range.end.Some? ==>
      forall t :: t in r <==> t in all && range.start.value <= t.createdAt <= range.end.value
    ensures range.start.None? && range.end.None? ==> r == []
    ensures forall t :: multiset(r)[t] == if InDateRange(t, range) then multiset(all)[t] else 0
  {
    var r := Filter(all, t => InDateRange(t, range));
    assert r != [] ==> r[0] in r;
    r
  }

  /** The older page's date test: both bounds, inclusive. */
  predicate InClosedRange(t: Tweet, range: DateRange)
  {
    AtOrAfter(t, range.start) && AtOrBefore(t, range.end)
  }

  /** `filterTweetsByDateRange` of the older page: a missing bound keeps nothing. */
  function FilterByClosedRange(all: seq<Tweet>, range: DateRange): (r: seq<Tweet>)
    ensures Subsequence(r, all)
    ensures range.start.Some? && range.end.Some? ==>
      forall t :: t in r <==> t in all && range.start.value <= t.createdAt <= range.end.value
    ensures range.start.None? || range.end.None? ==> r == []
    ensures forall t :: multiset(r)[t] == if InClosedRange(t, range) then multiset(all)[t] else 0
  {
    var r := Filter(all, t => InClosedRange(t, range));
    assert r != [] ==> r[0] in r;
    r
  }

  /** `tweet.extended_entities?.media.some(m => m.type === "photo")`. */
  predicate HasPhoto(t: Tweet)
  {
    t.extendedEntities.Some? &&
    exists i :: 0 <= i < |t.extendedEntities.value.media| &&
      t.extendedEntities.value.media[i].mediaType == "photo"
  }

  /** `displayTweetsIncludesImages`: the records with at least one photo, in order. */
  function WithPhotos(all: seq<Tweet>): (r: seq<Tweet>)
    ensures Subsequence(r, all)
    ensures forall t :: t in r <==>
      (t in all && t.extendedEntities.Some? &&
       exists m :: m in t.extendedEntities.value.media && m.mediaType == "photo")
    ensures forall t :: multiset(r)[t] == if HasPhoto(t) then multiset(all)[t] else 0
  {
    Filter(all, HasPhoto)
  }

  /** `query` occurs in `text` starting at position `i`. */
  predicate OccursAt(text: string, query: string, i: int)
  {
    0 <= i && i + |query| <= |text| && text[i..i + |query|] == query
  }

  /** `text.includes(query)`, scanning the start positions from the left. */
  function Contains(text: string, query: string): bool
  {
    if query <= text then true
    else if text == [] then false
    else Contains(text[1..], query)
  }

  /** The scan finds the query exactly when it occurs at some position. */
  lemma ContainsIffOccurs(text: string, query: string)
    ensures Contains(text, query) <==> exists i :: OccursAt(text, query, i)
  {
    if Contains(text, query) {
      var i := ContainsWitness(text, query);
    }
    if exists i :: OccursAt(text, query, i) {
      var i :| OccursAt(text, query, i);
      OccursIsFound(text, query, i);
    }
  }

  /** When the scan succeeds, it has found a position where the query occurs. */
  lemma {:induction false} ContainsWitness(text: string, query: string) returns (i: nat)
    requires Contains(text, query)
    ensures OccursAt(text, query, i)
  {
    if query <= text {
      i := 0;
      assert text[0..|query|] == query;
    } else {
      var j := ContainsWitness(text[1..], query);
      i := j + 1;
      assert text[i..i + |query|] == text[1..][j..j + |query|];
    }
  }

  /** Every position where the query occurs is found by the scan. */
  lemma {:induction false} OccursIsFound(text: string, query: string, i: int)
    requires OccursAt(text, query, i)
    ensures Contains(text, query)
    decreases i
  {
    if i > 0 && !(query <= text) {
      assert text[1..][i - 1..i - 1 + |query|] == text[i..i + |query|];
      OccursIsFound(text[1..], query, i - 1);
    }
  }

  /** The search test: the query occurs in the text or in the owner label (case-sensitive). */
  predicate Matches(t: Tweet, query: string)
  {
    Contains(t.fullText, query) || Contains(t.userName, query)
  }

  /** `handleSearchChange`: the empty query restores everything, any other filters. */
  function Search(all: seq<Tweet>, query: string): (r: seq<Tweet>)
    ensures query == "" ==> r == all
    ensures Subsequence(r, all)
    ensures query != "" ==> forall t :: t in r <==> t in all && Matches(t, query)
    ensures query != "" ==>
      forall t :: multiset(r)[t] == if Matches(t, query) then multiset(all)[t] else 0
  {
    if query == "" then
      SubsequenceReflexive(all);
      all
    else Filter(all, t => Matches(t, query))
  }

  lemma {:induction false} SubsequenceReflexive<T>(s: seq<T>)
    ensures Subsequence(s, s)
  {
    if s != [] {
      SubsequenceReflexive(s[1..]);
    }
  }
}
