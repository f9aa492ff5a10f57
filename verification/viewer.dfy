/**
 * The viewer page (src/pages/index.tsx): it drives the `useTweets` store and adds the
 * search box, the two sort buttons, the input-row editors and the incremental reveal.
 */
module ViewerPage {
  import opened Wrappers
  import opened Archive
  import opened Chronology
  import opened Query
  import opened Slots
  import opened Pagination
  import opened TweetsHook

  class Viewer {
    const store: TweetStore
    var searchQuery: string
    var maxTweetsToShow: nat

    ghost predicate Valid()
      reads this, store
    {
      store.Valid() && maxTweetsToShow >= PageSize
    }

    /** `displayedTweets` once its effect has run: the first `maxTweetsToShow` records. */
    function DisplayedTweets(): (r: seq<Tweet>)
      reads this, store
      ensures r <= store.tweets
      ensures |r| == Min(maxTweetsToShow, |store.tweets|)
    {
      Displayed(store.tweets, maxTweetsToShow)
    }

    constructor ()
      ensures Valid() && fresh(store)
      ensures searchQuery == "" && maxTweetsToShow == PageSize
      ensures store.userInputs == [EmptySlot] && store.allTweets == [] && store.tweets == []
      ensures store.dateRange == NoDates
    {
      store := new TweetStore();
      searchQuery := "";
      maxTweetsToShow := PageSize;
    }

    /**
     * The observer callback: while fewer records are displayed than `tweets` holds,
     * the counter grows by its own value; it never shrinks and nothing resets it.
     */
    method Grow()
      requires Valid()
      modifies this`maxTweetsToShow
      ensures Valid()
      ensures maxTweetsToShow == Grown(store.tweets, old(maxTweetsToShow))
      ensures old(|DisplayedTweets()| < |store.tweets|) ==> maxTweetsToShow == 2 * old(maxTweetsToShow)
      ensures old(|DisplayedTweets()| == |store.tweets|) ==> maxTweetsToShow == old(maxTweetsToShow)
    {
      if |DisplayedTweets()| < |store.tweets| {
        maxTweetsToShow := maxTweetsToShow + maxTweetsToShow;
      }
    }

    /** `handleSearchChange`: search the full list, replacing any earlier filter or sort. */
    method HandleSearchChange(query: string)
      requires Valid()
      modifies this`searchQuery, store`tweets
      ensures Valid()
      ensures searchQuery == query
      ensures store.tweets == Search(store.allTweets, query)
      ensures query == "" ==> store.tweets == store.allTweets
    {
      searchQuery := query;
      if query != "" {
        var filteredTweets := Search(store.allTweets, query);
        SubsequenceMultiset(filteredTweets, store.allTweets);
        store.tweets := filteredTweets;
      } else {
        store.tweets := store.allTweets;
      }
    }

    /** The newest-first button: sorts a copy of the current `tweets`. */
    method SortNewestFirst()
      requires Valid()
      modifies store`tweets
      ensures Valid()
      ensures store.tweets == SortByTime(old(store.tweets), NewestFirst)
      ensures Sorted(store.tweets, NewestFirst)
      ensures multiset(store.tweets) == multiset(old(store.tweets))
      ensures store.allTweets == old(store.allTweets)
    {
      var sortedTweets := store.tweets;
      SortByTimeSorted(sortedTweets, NewestFirst);
      sortedTweets := SortByTime(sortedTweets, NewestFirst);
      store.tweets := sortedTweets;
    }

    /** The oldest-first button: sorts a copy of the current `tweets`. */
    method SortOldestFirst()
      requires Valid()
      modifies store`tweets
      ensures Valid()
      ensures store.tweets == SortByTime(old(store.tweets), OldestFirst)
      ensures Sorted(store.tweets, OldestFirst)
      ensures multiset(store.tweets) == multiset(old(store.tweets))
      ensures store.allTweets == old(store.allTweets)
    {
      var sortedTweets := store.tweets;
      SortByTimeSorted(sortedTweets, OldestFirst);
      sortedTweets := SortByTime(sortedTweets, OldestFirst);
      store.tweets := sortedTweets;
    }

    /** `addUserInput`: one more empty row at the end. */
    method AddUserInput()
      requires Valid()
      modifies store`userInputs
      ensures Valid()
      ensures store.userInputs == old(store.userInputs) + [EmptySlot]
    {
      store.userInputs := store.userInputs + [EmptySlot];
    }

    /** `handleUserInputChange`: replace the row at `index` of a copy of the rows. */
    method HandleUserInputChange(index: nat, file: Option<FileData>, userName: string)
      requires Valid()
      requires index < |store.userInputs|
      modifies store`userInputs
      ensures Valid()
      ensures |store.userInputs| == |old(store.userInputs)|
      ensures store.userInputs[index] == Slot(file, userName)
      ensures forall j :: 0 <= j < |store.userInputs| && j != index ==>
        store.userInputs[j] == old(store.userInputs)[j]
    {
      var newUserInputs := store.userInputs;
      newUserInputs := newUserInputs[index := Slot(file, userName)];
      store.userInputs := newUserInputs;
    }

    /** `removeUserInput`: keep every row whose index differs from `index`. */
    method RemoveUserInput(index: int)
      requires Valid()
      modifies store`userInputs
      ensures Valid()
      ensures store.userInputs == WithoutIndex(old(store.userInputs), index)
    {
      store.userInputs := WithoutIndex(store.userInputs, index);
    }

    /** The start date field: `setDateRange({...dateRange, start})`. */
    method SetStartDate(start: Option<int>)
      requires Valid()
      modifies store`dateRange
      ensures Valid()
      ensures store.dateRange == old(store.dateRange).(start := start)
    {
      store.dateRange := store.dateRange.(start := start);
    }

    /** The end date field: `setDateRange({...dateRange, end})`. */
    method SetEndDate(end: Option<int>)
      requires Valid()
      modifies store`dateRange
      ensures Valid()
      ensures store.dateRange == old(store.dateRange).(end := end)
    {
      store.dateRange := store.dateRange.(end := end);
    }
  }
}
