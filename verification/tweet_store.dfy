/**
 * The state held by the `useTweets` hook (src/hooks/useTweets.ts) and its handlers.
 * Every `setX` call of a handler is an assignment to the matching field.
 */
module TweetsHook {
  import opened Archive
  import opened Merge
  import opened Chronology
  import opened Query

  class TweetStore {
    var userInputs: seq<Slot>
    var allTweets: seq<Tweet>   // the full merged timeline
    var tweets: seq<Tweet>      // what the current query shows
    var dateRange: DateRange

    /** The current list never shows a record, or a copy of one, that the full list lacks. */
    ghost predicate Valid()
      reads this
    {
      multiset(tweets) <= multiset(allTweets)
    }

    /** The hook's initial state: one empty input row, no records, empty date fields. */
    constructor ()
      ensures Valid()
      ensures userInputs == [EmptySlot] && allTweets == [] && tweets == []
      ensures dateRange == NoDates
    {
      userInputs := [EmptySlot];
      allTweets := [];
      tweets := [];
      dateRange := NoDates;
    }

    /**
     * `displayTweets`: load every row in order, concatenate, sort newest first and
     * install the result as both the full list and the current list.
     */
    method DisplayTweets()
      requires Valid()
      modifies this
      ensures Valid()
      ensures allTweets == tweets
      ensures allTweets == SortByTime(Merged(old(userInputs)), NewestFirst)
      ensures Sorted(allTweets, NewestFirst)
      ensures multiset(allTweets) == multiset(Merged(old(userInputs)))
      ensures |allTweets| == LoadedCount(old(userInputs))
      ensures userInputs == old(userInputs) && dateRange == old(dateRange)
    {
      var combinedTweets := Combine(userInputs);
      SortByTimeSorted(combinedTweets, NewestFirst);
      combinedTweets := SortByTime(combinedTweets, NewestFirst);
      allTweets := combinedTweets;
      tweets := combinedTweets;
    }

    /** `filterTweetsByDateRange`: re-derived from the full list, never from `tweets`. */
    method FilterTweetsByDateRange()
      requires Valid()
      modifies this`tweets
      ensures Valid()
      ensures tweets == FilterByDateRange(allTweets, dateRange)
    {
      tweets := FilterByDateRange(allTweets, dateRange);
      SubsequenceMultiset(tweets, allTweets);
    }

    /** `displayTweetsIncludesImages`: the records of the full list that hold a photo. */
    method DisplayTweetsIncludesImages()
      requires Valid()
      modifies this`tweets
      ensures Valid()
      ensures tweets == WithPhotos(allTweets)
    {
      tweets := WithPhotos(allTweets);
      SubsequenceMultiset(tweets, allTweets);
    }

    /** `resetFilter`: show the full list again and empty both date fields. */
    method ResetFilter()
      requires Valid()
      modifies this`tweets, this`dateRange
      ensures Valid()
      ensures tweets == allTweets && dateRange == NoDates
    {
      tweets := allTweets;
      dateRange := NoDates;
    }

    /** `clearTweets`: drop every record; the rows and the date fields stay. */
    method ClearTweets()
      requires Valid()
      modifies this`allTweets, this`tweets
      ensures Valid()
      ensures allTweets == [] && tweets == []
    {
      allTweets := [];
      tweets := [];
    }
  }

  /**
   * Filters do not accumulate: applying the photo filter and then the date filter
   * leaves exactly the date filter of the full list. The photo filter is exported by
   * the hook but called by neither page, so this sequence arises only through the hook.
   */
  method PhotoThenDateFilter(store: TweetStore)
    requires store.Valid()
    modifies store`tweets
    ensures store.Valid()
    ensures store.tweets == FilterByDateRange(old(store.allTweets), old(store.dateRange))
  {
    store.DisplayTweetsIncludesImages();
    store.FilterTweetsByDateRange();
  }
}
