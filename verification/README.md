# MultiTwiArchiveViewer timeline model

A Dafny model of the timeline logic of MultiTwiArchiveViewer, a React viewer for exported
tweet archives. Several users' archive fragments (`tweets.js`, which binds an array of
`{tweet: {...}}` wrappers at `window.YTD.tweets.part0`) are loaded, tagged with an owner
label, merged in input-row order and sorted newest first. The date-range filter, text
search and reset re-derive the shown list (`tweets`) from the merged list (`allTweets`).
The current page's two sort buttons sort the current `tweets`. Clear empties both lists.
The hook also exports a photo filter (`displayTweetsIncludesImages`) that neither page
calls. The visible page (`displayedTweets`) grows as the reader scrolls.

Layout, one module per concern:

- `wrappers.dfy`: `Option`.
- `archive.dfy` (`Archive`): records, input rows, timestamp reformatting and `loadTweets`.
- `merge.dfy` (`Merge`): the per-row loading loop of `displayTweets` and the merged list it builds.
- `chronology.dfy` (`Chronology`): the stable newest-first and oldest-first sort.
- `query.dfy` (`Query`): `filter`, the date tests of both page versions, the photo test and `includes`-based search.
- `slots.dfy` (`Slots`): removal of an input row by index.
- `pagination.dfy` (`Pagination`): the displayed prefix and the observer's grow step.
- `tweet_store.dfy` (`TweetsHook.TweetStore`): the state and handlers of the `useTweets` hook.
- `viewer.dfy` (`ViewerPage.Viewer`): the current page, which drives the hook.
- `legacy_viewer.dfy` (`LegacyPage.LegacyViewer`): the older page, which keeps its own copy of the state.

Modelling choices:

- Each React state variable is a field. Each `setX` call is an assignment to that field.
  The value reached once the effects have settled is what the model describes.
- A timestamp is the integer instant, in milliseconds, that its text denotes.
  - `loadTweets` reformats `created_at` to minute precision, and every later comparison re-parses that text.
  - So a loaded record carries the instant of the start of its minute (`Archive.FormatDate`).
  - A raw `created_at` that does not parse is `None`. Formatting it throws, so the whole fragment yields `[]`.
- A date-picker field is `Option<int>`; `None` is the empty field.
  - `new Date("")` is an invalid date, and every comparison against it is false.
  - So in the hook's filter, two empty fields keep nothing.
  - In the older page's filter, any empty field keeps nothing.
- Reading the file and evaluating the fragment are abstracted to `FileData`: a read failure, a script failure, or the evaluated `part0` array.
- `Array.prototype.sort` is stable. Every call site sorts a fresh local copy, so the sort is modelled as a stable insertion sort on values.

Behaviour of the code worth noting:

- A date filter with no bounds keeps nothing. It does not return the whole list.
- The grow step doubles the counter rather than adding a fixed page.
- No operation resets the counter when `tweets` changes.
- The counter may exceed `|tweets|`. Only the displayed slice is clamped.
- Fragments are evaluated as script, not parsed as data literals.
- An owner label may be empty. Nothing checks it.

## Model

| member | source | states |
|---|---|---|
| Archive.FormatDate | src/hooks/useTweets.ts:22-32 | formatting to minute precision and re-parsing gives the start of the instant's minute: a multiple of 60000 at most 59999 ms earlier |
| Archive.FormatDateMonotone | src/hooks/useTweets.ts:22-32 | reformatting never reverses the order of two timestamps |
| Archive.ConvertAll | src/hooks/useTweets.ts:63-67 | the `map` succeeds exactly when every wrapper has a `tweet` with a parseable date; then it gives one record per wrapper, in order |
| Archive.LoadTweets | src/hooks/useTweets.ts:45-72 | no file, a read failure or a script failure yields the empty sequence (the copy at src/pages/old/index.tsx:102-129 is identical) |
| Archive.LoadTweetsTagsOwner | src/hooks/useTweets.ts:63-67 | every loaded record carries the row's owner label |
| Archive.LoadTweetsMapsWrappers | src/hooks/useTweets.ts:61-67 | an evaluated fragment yields exactly one record per wrapper, in order, with the owner label, `full_text` and media copied, and the timestamp equal to `FormatDate` of the raw one, the start of its minute |
| Archive.LoadTweetsRejectsFragment | src/hooks/useTweets.ts:63-71 | one wrapper that makes the `map` throw empties the whole fragment's result |
| Merge.Combine | src/hooks/useTweets.ts:112-116 | the loop builds exactly the slot-order concatenation of every row's records, and its length is the sum of the rows' counts |
| Merge.MergedAppend | src/hooks/useTweets.ts:112-116 | merging two runs of rows is concatenating their merges, in order |
| Merge.MergedSnoc | src/hooks/useTweets.ts:115 | one more row appends exactly that row's records at the end |
| Merge.MergedLength | src/hooks/useTweets.ts:112-116 | the merged length is the sum of the per-row lengths (no deduplication) |
| Merge.MergedFromSlots | src/hooks/useTweets.ts:113-115 | every merged record comes from some row and carries that row's owner label |
| Chronology.Insert | src/hooks/useTweets.ts:118-124 | one insertion step of the sort adds exactly one record and keeps the others |
| Chronology.SortByTime | src/hooks/useTweets.ts:118-124 | the sorted list is a permutation of its input |
| Chronology.InsertSorted | src/hooks/useTweets.ts:118-124 | inserting into an ordered list keeps it ordered |
| Chronology.SortByTimeSorted | src/hooks/useTweets.ts:118-124 | the sorted list is in the requested order: non-increasing instants for newest first, non-decreasing for oldest first |
| Chronology.InsertAtInstant | src/hooks/useTweets.ts:118-124 | an insertion never moves a record ahead of an earlier one with the same instant |
| Chronology.SortByTimeStable | src/hooks/useTweets.ts:118-124 | the sort is stable: for each instant, the records carrying it keep their relative order |
| Chronology.Reverse | src/pages/index.tsx:287-297 | reversal puts element `i` at position `n-1-i` |
| Chronology.OldestFirstIsReversedNewestFirst | src/pages/index.tsx:287-297 | when no two records share an instant, the oldest-first result is exactly the reverse of the newest-first result |
| Query.SubsequenceMultiset | src/hooks/useTweets.ts:75-85 | a filtered list holds no record more often than the full list |
| Query.Filter | src/hooks/useTweets.ts:75-85 | `filter` gives an order-preserving subsequence holding exactly the records that pass the test, every occurrence of a passing record and none of a failing one |
| Query.FilterByDateRange | src/hooks/useTweets.ts:74-86 | with only a start, keeps instants at or after it; with only an end, at or before it; with both, the inclusive range; with neither, nothing; always a subsequence of the full list keeping every copy of each kept record |
| Query.FilterByClosedRange | src/pages/old/index.tsx:86-94 | with both bounds, keeps exactly the inclusive range, in order, every copy of each kept record; a missing bound keeps nothing |
| Query.WithPhotos | src/hooks/useTweets.ts:90-96 | keeps, in order, exactly the records whose `extended_entities` has a media item of type `photo`, every copy of each |
| Query.ContainsIffOccurs | src/pages/index.tsx:148 | `includes` holds exactly when the query occurs at some position of the text |
| Query.ContainsWitness | src/pages/index.tsx:148 | when the scan succeeds it yields a position where the query occurs |
| Query.OccursIsFound | src/pages/index.tsx:148 | every position where the query occurs is found by the scan |
| Query.Search | src/pages/index.tsx:141-154 | an empty query gives the full list; any other keeps, in order, exactly the records (every copy of each) whose text or owner label contains it |
| Slots.WithoutIndex | src/pages/index.tsx:156-159 | removing row `i` keeps the rows before it, shifts the rows after it down by one, and an index that names no row removes nothing |
| Slots.RemoveUndoesAdd | src/pages/index.tsx:122-127 | removing the row just added gives back the previous rows |
| Pagination.Displayed | src/pages/index.tsx:61-63 | the displayed list is the prefix of `tweets` of length min(counter, length of `tweets`) |
| Pagination.Grown | src/pages/index.tsx:85-88 | a grow step never lowers the counter; it doubles it when records remain hidden and leaves it alone otherwise |
| Pagination.GrowRevealsMore | src/pages/index.tsx:85-88 | a step that fires shows strictly more records, and no step shows fewer |
| Pagination.LimitAfterGrowth | src/pages/index.tsx:85-88 | after k steps the counter is at least its start and each step reveals at least one more record until all are shown |
| Pagination.RevealsEverything | src/pages/index.tsx:85-88 | as many steps as `tweets` has records reveal the whole list from any positive counter |
| TweetsHook.TweetStore.constructor | src/hooks/useTweets.ts:35-43 | the hook starts with one empty row, no records and empty date fields |
| TweetsHook.TweetStore.DisplayTweets | src/hooks/useTweets.ts:111-137 | afterwards `allTweets` and `tweets` are the same list: the newest-first sort of the merged rows, a permutation of them with the summed length; rows and dates are unchanged |
| TweetsHook.TweetStore.FilterTweetsByDateRange | src/hooks/useTweets.ts:74-87 | `tweets` becomes the date filter of `allTweets`, whatever it was before |
| TweetsHook.TweetStore.DisplayTweetsIncludesImages | src/hooks/useTweets.ts:90-97 | `tweets` becomes the photo filter of `allTweets` |
| TweetsHook.TweetStore.ResetFilter | src/hooks/useTweets.ts:100-103 | `tweets` becomes `allTweets` and both date fields are emptied; `allTweets` is untouched |
| TweetsHook.TweetStore.ClearTweets | src/hooks/useTweets.ts:105-108 | both lists become empty; rows and dates are untouched |
| TweetsHook.PhotoThenDateFilter | src/hooks/useTweets.ts:74-97 | filters do not accumulate: photo filter then date filter leaves just the date filter of the `allTweets` and dates held before both calls (the photo filter is reachable only through the hook's API; neither page calls it) |
| ViewerPage.Viewer.constructor | src/pages/index.tsx:55-56 | the page starts with an empty query and a counter of 100 |
| ViewerPage.Viewer.DisplayedTweets | src/pages/index.tsx:61-63 | `displayedTweets` is the prefix of `tweets` of length min(`maxTweetsToShow`, length of `tweets`) |
| ViewerPage.Viewer.Grow | src/pages/index.tsx:85-88 | the counter doubles when fewer records are displayed than `tweets` holds and is unchanged otherwise; it stays at least 100 |
| ViewerPage.Viewer.HandleSearchChange | src/pages/index.tsx:141-154 | `tweets` becomes the search of `allTweets`, replacing any earlier filter; an empty query restores `allTweets`; the counter is not reset |
| ViewerPage.Viewer.SortNewestFirst | src/pages/index.tsx:270-279 | `tweets` becomes a permutation of the current `tweets`, not of `allTweets`, with non-increasing instants; `allTweets` is unchanged |
| ViewerPage.Viewer.SortOldestFirst | src/pages/index.tsx:287-297 | `tweets` becomes a permutation of the current `tweets` with non-decreasing instants; `allTweets` is unchanged |
| ViewerPage.Viewer.AddUserInput | src/pages/index.tsx:122-127 | appends exactly one empty row and keeps the others |
| ViewerPage.Viewer.HandleUserInputChange | src/pages/index.tsx:130-138 | replaces only the row at `index` and keeps the length |
| ViewerPage.Viewer.RemoveUserInput | src/pages/index.tsx:156-159 | drops exactly the row at `index`, keeping the others in order |
| ViewerPage.Viewer.SetStartDate | src/pages/index.tsx:246-248 | only the start field changes |
| ViewerPage.Viewer.SetEndDate | src/pages/index.tsx:254 | only the end field changes |
| LegacyPage.LegacyViewer.constructor | src/pages/old/index.tsx:60-67 | the older page starts with one empty row, no records, an empty query and empty dates |
| LegacyPage.LegacyViewer.FilterTweetsByDateRange | src/pages/old/index.tsx:86-94 | `tweets` becomes the both-bounds inclusive filter of `allTweets` |
| LegacyPage.LegacyViewer.ResetFilter | src/pages/old/index.tsx:97-100 | `tweets` becomes `allTweets` and both date fields are emptied |
| LegacyPage.LegacyViewer.DisplayTweets | src/pages/old/index.tsx:132-158 | both lists become the newest-first sort of the merged rows, a permutation with the summed length |
| LegacyPage.LegacyViewer.AddUserInput | src/pages/old/index.tsx:161-166 | appends exactly one empty row |
| LegacyPage.LegacyViewer.HandleUserInputChange | src/pages/old/index.tsx:169-177 | replaces only the row at `index` and keeps the length |
| LegacyPage.LegacyViewer.HandleSearchChange | src/pages/old/index.tsx:180-193 | `tweets` becomes the search of `allTweets`; an empty query restores `allTweets` |
| LegacyPage.LegacyViewer.RemoveUserInput | src/pages/old/index.tsx:195-198 | drops exactly the row at `index`, keeping the others in order |
| LegacyPage.LegacyViewer.SetStartDate | src/pages/old/index.tsx:267 | only the start field changes |
| LegacyPage.LegacyViewer.SetEndDate | src/pages/old/index.tsx:273 | only the end field changes |

## Left out

- IndexedDB persistence is not modelled: `openDB`, `getFromDB`, `saveToDB`, `saveImageToDB` and `clearDB` in src/pages/dbOperations.ts and their copies in src/pages/old/index.tsx:29-56. It is an asynchronous browser API. So the fire-and-forget save in `displayTweets`, the `clearDB()` call of the clear button and the load-on-mount effects (src/pages/index.tsx:65-80, src/pages/old/index.tsx:69-84) are left out too.
- File reading and `eval` of the fragment are browser I/O and script execution. The model starts from their outcome (`FileData`).
- `Intl.DateTimeFormat`, `new Date(...)` and `getTime()` are replaced by integer instants.
  - Reformatting is modelled as flooring to the minute. This assumes a fixed offset that is a whole number of minutes (no daylight-saving transition). In the hour repeated when daylight saving ends, re-parsing picks the earlier instant, which this model does not capture.
  - A date-picker day is taken as one instant on the same scale. The model does not capture that `new Date("YYYY-MM-DD")` is UTC midnight while record dates parse as local time.
- `extended_entities` is modelled with the `media` array its type declares. A value without `media` would make the photo filter throw; that case is not modelled.
- TweetsHook.TweetStore.DisplayTweets, LegacyPage.LegacyViewer.DisplayTweets: modelled as one atomic step. In the code the load is `async` and awaits each row in turn, and nothing disables its button. So handlers that run during a load (search, date filter, reset, clear, row edits) act on the old lists and are then overwritten by the load's final assignment; a clear pressed mid-load is undone. Two overlapping loads end with whichever finishes last. Neither interleaving nor overlapping calls is modelled.
- Query.Search, LegacyPage.LegacyViewer.HandleSearchChange, ViewerPage.Viewer.HandleSearchChange: record fields are modelled as the source's `Tweet` type declares them, so every record has a `full_text` string. A fragment whose tweet lacks `full_text` still loads in the code, and any non-empty search then throws after the query box has been updated, leaving `tweets` unchanged; that case is not modelled.
- The IntersectionObserver, refs, `renderMedia` and the JSX rendering are left out. Only the observer's grow rule is kept, as `Viewer.Grow`.
- The model assumes that each observer callback sees the current counter. Two callbacks fired before a re-render would each add the same stale value; this is not modelled.
- `displayedTweets` is modelled as the value its effect settles on, not as separate state that lags one render behind.
- Viewer.HandleUserInputChange and LegacyViewer.HandleUserInputChange require `index < |userInputs|`. Every caller passes the index of a rendered row. JavaScript would pad the array with holes for a larger index, and that case is not modelled.
- The `searchQuery` text box value is kept as a field. Rendering it is not modelled.
- src/pages/usage/index.tsx is a static page with no logic and is not part of this model.
