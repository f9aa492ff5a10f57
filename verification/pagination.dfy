/**
 * Incremental reveal in src/pages/index.tsx: `maxTweetsToShow` starts at one page,
 * `displayedTweets` is `tweets.slice(0, maxTweetsToShow)`, and the observer on the
 * last rendered record adds the counter to itself while records remain hidden.
 */
module Pagination {
  import opened Archive

  const PageSize: nat := 100

  function Min(a: int, b: int): int
  {
    if a <= b then a else b
  }

  /** `tweets.slice(0, limit)`. */
  function Displayed(tweets: seq<Tweet>, limit: nat): (r: seq<Tweet>)
    ensures r <= tweets
    ensures |r| == Min(limit, |tweets|)
  {
    if limit <= |tweets| then tweets[..limit] else tweets
  }

  /** The observer's guard: fewer records are displayed than the list holds. */
  predicate HiddenRemain(tweets: seq<Tweet>, limit: nat)
  {
    |Displayed(tweets, limit)| < |tweets|
  }

  /** The counter after one observer callback: `prev + maxTweetsToShow`. */
  function Grown(tweets: seq<Tweet>, limit: nat): (r: nat)
    ensures r >= limit
    ensures HiddenRemain(tweets, limit) ==> r == 2 * limit
    ensures !HiddenRemain(tweets, limit) ==> r == limit
  {
    if HiddenRemain(tweets, limit) then limit + limit else limit
  }

  /** A step that fires shows strictly more records, and never fewer. */
  lemma GrowRevealsMore(tweets: seq<Tweet>, limit: nat)
    requires limit >= 1
    ensures |Displayed(tweets, Grown(tweets, limit))| >= |Displayed(tweets, limit)|
    ensures HiddenRemain(tweets, limit) ==>
      |Displayed(tweets, Grown(tweets, limit))| > |Displayed(tweets, limit)|
  {
  }

  /** The counter after `k` observer callbacks over the same list. */
  function LimitAfter(tweets: seq<Tweet>, limit: nat, k: nat): nat
    decreases k
  {
    if k == 0 then limit else LimitAfter(tweets, Grown(tweets, limit), k - 1)
  }

  lemma {:induction false} LimitAfterGrowth(tweets: seq<Tweet>, limit: nat, k: nat)
    requires limit >= 1
    ensures LimitAfter(tweets, limit, k) >= limit
    ensures Min(LimitAfter(tweets, limit, k), |tweets|) >= Min(limit + k, |tweets|)
    decreases k
  {
    if k > 0 {
      LimitAfterGrowth(tweets, Grown(tweets, limit), k - 1);
    }
  }

  /** However small the starting page, |tweets| callbacks reveal the whole list. */
  lemma RevealsEverything(tweets: seq<Tweet>, limit: nat, k: nat)
    requires limit >= 1 && k >= |tweets|
    ensures Displayed(tweets, LimitAfter(tweets, limit, k)) == tweets
  {
    LimitAfterGrowth(tweets, limit, k);
  }
}
