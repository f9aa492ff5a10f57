/**
 * The older viewer page (src/pages/old/index.tsx): it keeps its own state instead of
 * the `useTweets` hook, has no sort buttons and no incremental reveal, and its date
 * filter demands both bounds. Like the current page, it offers no photo filter.
 */
module LegacyPage {
  import opened Wrappers
  import opened Archive
  import opened Merge
  import opened Chronology
  import opened Query
  import opened Slots

  class LegacyViewer {
    var allTweets: seq<Tweet>
    var tweets: seq<Tweet>
    var searchQuery: string
    var userInputs: seq<Slot>
    var dateRange: DateRange

    ghost predicate Valid()
      reads this
    {
      multiset(tweets) <= multiset(allTweets)
    }

    /** The page's initial state: a single empty input row and no records. */
    constructor ()
      ensures Valid()
      ensures allTweets == [] && tweets == [] && searchQuery == ""
      ensures userInputs == [EmptySlot] && dateRange == NoDates
    {
      allTweets := [];
      tweets := [];
      searchQuery := "";
      userInputs := [EmptySlot];
      dateRange := NoDates;
    }

    /** `filterTweetsByDateRange`: both bounds required and inclusive, from the full list. */
    method FilterTweetsByDateRange()
      requires Valid()
      modifies this`tweets
      ensures Valid()
      ensures tweets == FilterByClosedRange(allTweets, dateRange)
    {
      tweets := FilterByClosedRange(allTweets, dateRange);
      SubsequenceMultiset(tweets, allTweets);
    }

    /** `resetFilter`: the full list again and both date fields emptied. */
    method ResetFilter()
      requires Valid()
      modifies this`tweets, this`dateRange
      ensures Valid()
      ensures tweets == allTweets && dateRange == NoDates
    {
      tweets := allTweets;
      dateRange := NoDates;
    }

    /** `displayTweets`: load every row in order, concatenate, sort newest first. */
    method DisplayTweets()
      requires Valid()
      modifies this`allTweets, this`tweets
      ensures Valid()
      ensures allTweets == tweets
      ensures allTweets == SortByTime(Merged(userInputs), NewestFirst)
      ensures Sorted(allTweets, NewestFirst)
      ensures multiset(allTweets) == multiset(Merged(userInputs))
      ensures |allTweets| == LoadedCount(userInputs)
    {
      var combinedTweets := Combine(userInputs);
      SortByTimeSorted(combinedTweets, NewestFirst);
      combinedTweets := SortByTime(combinedTweets, NewestFirst);
      allTweets := combinedTweets;
      tweets := combinedTweets;
    }

    /** `addUserInput`: one more empty row at the end. */
    method AddUserInput()
      requires Valid()
      modifies this`userInputs
      ensures Valid()
      ensures userInputs == old(userInputs) + [EmptySlot]
    {
      userInputs := userInputs + [EmptySlot];
    }

    /** `handleUserInputChange`: replace the row at `index` of a copy of the rows. */
    method HandleUserInputChange(index: nat, file: Option<FileData>, userName: string)
      requires Valid()
      requires index < |userInputs|
      modifies this`userInputs
      ensures Valid()
      ensures |userInputs| == |old(userInputs)|
      ensures userInputs[index] == Slot(file, userName)
      ensures forall j :: 0 <= j < |userInputs| && j != index ==> userInputs[j] == old(userInputs)[j]
    {
      var newUserInputs := userInputs;
      newUserInputs := newUserInputs[index := Slot(file, userName)];
      userInputs := newUserInputs;
    }

    /** `handleSearchChange`: search the full list; the empty query restores it. */
    method HandleSearchChange(query: string)
      requires Valid()
      modifies this`searchQuery, this`tweets
      ensures Valid()
      ensures searchQuery == query
      ensures tweets == Search(allTweets, query)
      ensures query == "" ==> tweets == allTweets
    {
      searchQuery := query;
      if query != "" {
        var filteredTweets := Search(allTweets, query);
        SubsequenceMultiset(filteredTweets, allTweets);
        tweets := filteredTweets;
      } else {
        tweets := allTweets;
      }
    }

    /** `removeUserInput`: keep every row whose index differs from `index`. */
    method RemoveUserInput(index: int)
      requires Valid()
      modifies this`userInputs
      ensures Valid()
      ensures userInputs == WithoutIndex(old(userInputs), index)
    {
      userInputs := WithoutIndex(userInputs, index);
    }

    /** The start date field: `setDateRange({...dateRange, start})`. */
    method SetStartDate(start: Option<int>)
      requires Valid()
      modifies this`dateRange
      ensures Valid()
      ensures dateRange == old(dateRange).(start := start)
    {
      dateRange := dateRange.(start := start);
    }

    /** The end date field: `setDateRange({...dateRange, end})`. */
    method SetEndDate(end: Option<int>)
      requires Valid()
      modifies this`dateRange
      ensures Valid()
      ensures dateRange == old(dateRange).(end := end)
    {
      dateRange := dateRange.(end := end);
    }
  }
}
