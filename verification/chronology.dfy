/**
 * Sorting by time, as `Array.prototype.sort` does it with the comparators
 * `b - a` (newest first) and `a - b` (oldest first) over the parsed timestamps:
 * a stable sort, so records with the same instant keep their relative order.
 */
module Chronology {
  import opened Archive

  datatype Order = NewestFirst | OldestFirst

  /** `a` may stand before `b`: the comparator does not ask to swap them. */
  predicate InOrder(a: Tweet, b: Tweet, order: Order)
  {
    match order
    case NewestFirst => a.createdAt >= b.createdAt
    case OldestFirst => a.createdAt <= b.createdAt
  }

  predicate Sorted(s: seq<Tweet>, order: Order)
  {
    forall i, j :: 0 <= i < j < |s| ==> InOrder(s[i], s[j], order)
  }

  /** Inserts `x` before the first record it may precede. */
  function Insert(x: Tweet, s: seq<Tweet>, order: Order): (r: seq<Tweet>)
    ensures |r| == |s| + 1
    ensures multiset(r) == multiset(s) + multiset{x}
  {
    if s == [] then [x]
    else if InOrder(x, s[0], order) then [x] + s
    else
      assert s == [s[0]] + s[1..];
      [s[0]] + Insert(x, s[1..], order)
  }

  /** The stable sort of `s` in the given order. */
  function SortByTime(s: seq<Tweet>, order: Order): (r: seq<Tweet>)
    ensures |r| == |s|
    ensures multiset(r) == multiset(s)
  {
    if s == [] then []
    else
      assert s == [s[0]] + s[1..];
      Insert(s[0], SortByTime(s[1..], order), order)
  }

  lemma {:induction false} InsertSorted(x: Tweet, s: seq<Tweet>, order: Order)
    requires Sorted(s, order)
    ensures Sorted(Insert(x, s, order), order)
  {
    if s != [] && !InOrder(x, s[0], order) {
      var rest := Insert(x, s[1..], order);
      InsertSorted(x, s[1..], order);
      forall k | 0 <= k < |rest|
        ensures InOrder(s[0], rest[k], order)
      {
        assert rest[k] in multiset(rest);
        if rest[k] != x {
          assert rest[k] in multiset(s[1..]);
          var j :| 0 <= j < |s[1..]| && s[1..][j] == rest[k];
          assert s[j + 1] == rest[k];
        }
      }
    }
  }

  /** The sorted result is ordered: newest first, or oldest first. */
  lemma {:induction false} SortByTimeSorted(s: seq<Tweet>, order: Order)
    ensures Sorted(SortByTime(s, order), order)
  {
    if s != [] {
      SortByTimeSorted(s[1..], order);
      InsertSorted(s[0], SortByTime(s[1..], order), order);
    }
  }

  /** The records of `s` whose instant is `instant`, in their order in `s`. */
  function AtInstant(s: seq<Tweet>, instant: int): seq<Tweet>
  {
    if s == [] then []
    else if s[0].createdAt == instant then [s[0]] + AtInstant(s[1..], instant)
    else AtInstant(s[1..], instant)
  }

  lemma {:induction false} InsertAtInstant(x: Tweet, s: seq<Tweet>, order: Order, instant: int)
    ensures AtInstant(Insert(x, s, order), instant) ==
      (if x.createdAt == instant then [x] else []) + AtInstant(s, instant)
  {
    var prefix := if x.createdAt == instant then [x] else [];
    if s == [] {
      assert AtInstant([x], instant) == prefix + AtInstant([], instant);
    } else if InOrder(x, s[0], order) {
      assert ([x] + s)[0] == x && ([x] + s)[1..] == s;
    } else {
      var r := Insert(x, s, order);
      var rest := Insert(x, s[1..], order);
      assert r[0] == s[0] && r[1..] == rest;
      InsertAtInstant(x, s[1..], order, instant);
      if s[0].createdAt == instant {
        assert x.createdAt != instant;
        calc {
          AtInstant(r, instant);
          [s[0]] + AtInstant(rest, instant);
          [s[0]] + AtInstant(s[1..], instant);
          AtInstant(s, instant);
        }
      } else {
        calc {
          AtInstant(r, instant);
          AtInstant(rest, instant);
          prefix + AtInstant(s[1..], instant);
          prefix + AtInstant(s, instant);
        }
      }
    }
  }

  /** Stability: for every instant, the records carrying it keep their relative order. */
  lemma {:induction false} SortByTimeStable(s: seq<Tweet>, order: Order, instant: int)
    ensures AtInstant(SortByTime(s, order), instant) == AtInstant(s, instant)
  {
    if s != [] {
      SortByTimeStable(s[1..], order, instant);
      InsertAtInstant(s[0], SortByTime(s[1..], order), order, instant);
    }
  }

  /** Reversal of a sequence. */
  function Reverse(s: seq<Tweet>): (r: seq<Tweet>)
    ensures |r| == |s|
    ensures forall i :: 0 <= i < |s| ==> r[i] == s[|s| - 1 - i]
  {
    if s == [] then [] else [s[|s| - 1]] + Reverse(s[..|s| - 1])
  }

  /** No two records of `s` share an instant. */
  predicate DistinctInstants(s: seq<Tweet>)
  {
    forall i, j :: 0 <= i < j < |s| ==> s[i].createdAt != s[j].createdAt
  }

  lemma {:induction false} InsertAfterAll(x: Tweet, s: seq<Tweet>)
    requires forall i :: 0 <= i < |s| ==> s[i].createdAt > x.createdAt
    ensures Insert(x, s, NewestFirst) == s + [x]
  {
    if s != [] {
      InsertAfterAll(x, s[1..]);
      assert [s[0]] + (s[1..] + [x]) == s + [x];
    }
  }

  lemma {:induction false} InsertBeforeLast(x: Tweet, s: seq<Tweet>, y: Tweet)
    requires InOrder(x, y, NewestFirst)
    ensures Insert(x, s + [y], NewestFirst) == Insert(x, s, NewestFirst) + [y]
  {
    if s == [] {
      assert [] + [y] == [y];
    } else {
      assert (s + [y])[0] == s[0] && (s + [y])[1..] == s[1..] + [y];
      if !InOrder(x, s[0], NewestFirst) {
        InsertBeforeLast(x, s[1..], y);
      }
    }
  }

  lemma {:induction false} InsertReverse(x: Tweet, s: seq<Tweet>)
    requires Sorted(s, NewestFirst)
    requires forall i :: 0 <= i < |s| ==> s[i].createdAt != x.createdAt
    ensures Insert(x, Reverse(s), OldestFirst) == Reverse(Insert(x, s, NewestFirst))
  {
    if s == [] {
    } else {
      var front, last := s[..|s| - 1], s[|s| - 1];
      assert s == front + [last];
      assert Reverse(s) == [last] + Reverse(front);
      if x.createdAt < last.createdAt {
        InsertAfterAll(x, s);
        assert (s + [x])[..|s|] == s;
        assert Reverse(s + [x]) == [x] + Reverse(s);
      } else {
        InsertReverse(x, front);
        InsertBeforeLast(x, front, last);
        var mid := Insert(x, front, NewestFirst);
        assert (mid + [last])[..|mid|] == mid;
        assert Reverse(mid + [last]) == [last] + Reverse(mid);
      }
    }
  }

  /**
   * When no two records share an instant, sorting oldest first gives exactly the
   * reverse of sorting newest first.
   */
  lemma {:induction false} OldestFirstIsReversedNewestFirst(s: seq<Tweet>)
    requires DistinctInstants(s)
    ensures SortByTime(s, OldestFirst) == Reverse(SortByTime(s, NewestFirst))
  {
    if s != [] {
      var rest := SortByTime(s[1..], NewestFirst);
      OldestFirstIsReversedNewestFirst(s[1..]);
      SortByTimeSorted(s[1..], NewestFirst);
      forall i | 0 <= i < |rest|
        ensures rest[i].createdAt != s[0].createdAt
      {
        assert rest[i] in multiset(s[1..]);
        var j :| 0 <= j < |s[1..]| && s[1..][j] == rest[i];
        assert s[j + 1] == rest[i];
      }
      InsertReverse(s[0], rest);
    }
  }
}
