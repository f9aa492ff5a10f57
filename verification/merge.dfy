/**
 * The loop at the head of `displayTweets` (src/hooks/useTweets.ts, and its copy in
 * src/pages/old/index.tsx): every input slot is loaded in slot order and the results
 * are concatenated onto `combinedTweets`. No deduplication happens.
 */
module Merge {
  import opened Archive

  /** The concatenation of every slot's loaded records, in slot order. */
  function Merged(inputs: seq<Slot>): seq<Tweet>
  {
    if inputs == [] then [] else LoadTweets(inputs[0]) + Merged(inputs[1..])
  }

  /** The sum of the per-slot record counts. */
  function LoadedCount(inputs: seq<Slot>): nat
  {
    if inputs == [] then 0 else |LoadTweets(inputs[0])| + LoadedCount(inputs[1..])
  }

  /** Merging two runs of slots is merging each run and concatenating, in order. */
  lemma {:induction false} MergedAppend(a: seq<Slot>, b: seq<Slot>)
    ensures Merged(a + b) == Merged(a) + Merged(b)
  {
    if a == [] {
      assert a + b == b;
    } else {
      assert (a + b)[1..] == a[1..] + b;
      MergedAppend(a[1..], b);
    }
  }

  /** Appending one slot appends exactly its loaded records. */
  lemma MergedSnoc(inputs: seq<Slot>, slot: Slot)
    ensures Merged(inputs + [slot]) == Merged(inputs) + LoadTweets(slot)
  {
    MergedAppend(inputs, [slot]);
    assert Merged([slot]) == LoadTweets(slot) + Merged([]);
  }

  /** The merged list has exactly as many records as all slots together. */
  lemma {:induction false} MergedLength(inputs: seq<Slot>)
    ensures |Merged(inputs)| == LoadedCount(inputs)
  {
    if inputs != [] {
      MergedLength(inputs[1..]);
    }
  }

  /** Every merged record comes from some slot and carries that slot's owner label. */
  lemma {:induction false} MergedFromSlots(inputs: seq<Slot>, t: Tweet)
    requires t in Merged(inputs)
    ensures exists i :: 0 <= i < |inputs| && t in LoadTweets(inputs[i]) && t.userName == inputs[i].userName
  {
    if t in LoadTweets(inputs[0]) {
      LoadTweetsTagsOwner(inputs[0]);
    } else {
      var rest := inputs[1..];
      MergedFromSlots(rest, t);
      var i :| 0 <= i < |rest| && t in LoadTweets(rest[i]) && t.userName == rest[i].userName;
      assert rest[i] == inputs[i + 1];
    }
  }

  /** The merge loop: `combinedTweets = combinedTweets.concat(userTweets)` per slot. */
  method Combine(inputs: seq<Slot>) returns (combined: seq<Tweet>)
    ensures combined == Merged(inputs)
    ensures |combined| == LoadedCount(inputs)
  {
    combined := [];
    var i := 0;
    while i < |inputs|
      invariant 0 <= i <= |inputs|
      invariant combined == Merged(inputs[..i])
    {
      var userTweets := LoadTweets(inputs[i]);
      assert inputs[..i + 1] == inputs[..i] + [inputs[i]];
      MergedSnoc(inputs[..i], inputs[i]);
      combined := combined + userTweets;
      i := i + 1;
    }
    assert inputs[..i] == inputs;
    MergedLength(inputs);
  }
}
