# Hacker News paging core, in Dafny

This project models the paging engine of an Android Hacker News reader. The
engine turns a ranked list of item ids ("top", "new" or "best" stories) into
pages of `Story` records. It has three parts:

- **`HackerNewsPagingSource.load`** (module `PagingSource`). It reads the window
  `[position, position + loadSize)` of the id list, clamped to the list. It
  fetches every id in the window and drops the lookups that throw or are not
  stories. It keeps the survivors in window order and computes `prevKey` and
  `nextKey`. `getRefreshKey` maps an anchor position back to a key.
- **`HackerNewsItem.toStory`** (module `Mapper`). It is a kind filter plus a
  field copy.
- **The paging source the repository builds for a listing** (module
  `Repository`). It fetches the listing's id list lazily. It caches the list
  only when the fetch succeeds; a failed fetch becomes an `Error` and the next
  load tries again. It delegates every load to `HackerNewsPagingSource`. Its own
  `getRefreshKey` always returns `null`.

Modelling choices:

- **Pure functions for the network.** The network is passed in as values.
  `ApiService` holds what each id-list endpoint would answer at the moment of
  a load, plus the item lookup `getStory: Int32 -> Result<HackerNewsItem, Throwable>`.
  Each load takes the `ApiService` of its own moment, so a retry can succeed
  where an earlier attempt failed.
- **Exceptions.** A thrown exception is a `Failure` of `Result`. A Kotlin
  `null` is `None` of `Option`.
- **The concurrent fan-out.** `async { … }` for each id, then `awaitAll()` and
  `filterNotNull()`, is modelled twice:
  - as the function `ResolveAll` followed by `FilterNotNull`;
  - as the method `FanOut`. It lets the per-id tasks complete in any order,
    writes each result into its id's slot, and is proved to give the same data.
- **Kotlin `Int` arithmetic is 32-bit and wraps.** This covers the window end
  `position + loadSize` (with `coerceAtMost`), `prevKey = position - loadSize`,
  and the refresh key `prevKey + pageSize` / `nextKey - pageSize`. The model
  writes out that wrap-around (`KotlinInt.Add32`, `KotlinInt.Sub32`). A
  `List<Int>` has an `Int` size, so id lists are `IdList`, sequences of at most
  `INT_MAX` elements.
- **`subList`** throws unless `0 <= from <= to <= size`. In `load` the only
  way to reach that throw is a negative key. The outer `catch` turns it into
  `LoadResult.Error`.
- **`Instant.ofEpochSecond`** throws a `DateTimeException` outside the range
  `java.time.Instant` can represent: seconds -31557014167219200 to
  31556889864403199. So `ToStory` returns `Result<Option<Story>, Throwable>`.
  - Inside `load`, the per-item `catch` drops such an item.
  - `getStory` lets the exception reach its caller.
  - A `STORY` item therefore always gives a story when its `time` is absent or
    in that range.
- **The unit tests** construct `HackerNewsItem` with five named arguments.
  `API.kt` declares no default values for the other ten parameters, so that
  construction does not compile as written. The scenario lemmas therefore fix
  only what the test's intent needs: each mocked id answers with an item of
  that `id`, of type `STORY`, with no `time`; every other field is left free.
- **Refresh keys.** `HackerNewsPagingSource.getRefreshKey` lands back on the
  anchor's page only when that page was loaded with the configured page size
  (`RefreshKeyReturnsToPage`). The first page is loaded with the initial size of
  40, so a refresh anchored on it asks for offset 20 rather than 0
  (`FirstPageRefreshKey`, `InitialPageRefreshesOffPage`). The app never reaches
  this, because the listing sources the repository builds override
  `getRefreshKey` to return `null` and so always refresh from offset 0.

## Model

| member | source | states |
|---|---|---|
| KotlinInt.Add32 | app/src/main/java/com/angelomarzo/hackernews/data/HackerNewsPagingSource.kt:35 | Kotlin `Int` addition: the exact sum when it fits, otherwise the sum shifted by 2^32 |
| KotlinInt.Sub32 | app/src/main/java/com/angelomarzo/hackernews/data/HackerNewsPagingSource.kt:56 | Kotlin `Int` subtraction: the exact difference when it fits, otherwise shifted by 2^32 |
| KotlinInt.Min | app/src/main/java/com/angelomarzo/hackernews/data/HackerNewsPagingSource.kt:35 | `coerceAtMost` returns one of its arguments and is no larger than either |
| Model.OfEpochSecond | app/src/main/java/com/angelomarzo/hackernews/data/model/Mapper.kt:13 | converting epoch seconds succeeds exactly inside Instant's range and keeps the seconds; outside it, it fails with a date-time exception |
| Mapper.ToStory | app/src/main/java/com/angelomarzo/hackernews/data/model/Mapper.kt:6-20 | a non-story item (including one with no type) gives `null`; a story gives a present result exactly when its time converts; id, by, title, url, score, descendants and text are copied, and time is present exactly when the raw time is, with the same seconds |
| Mapper.ToStoryIgnoresOtherFields | app/src/main/java/com/angelomarzo/hackernews/data/model/Mapper.kt:10-19 | items differing only in deleted, dead, parent, poll, kids or parts map to the same result |
| Mapper.ToStoryDeterminesFields | app/src/main/java/com/angelomarzo/hackernews/data/model/Mapper.kt:10-19 | two items that map to the same present story agree on every field the story is copied from |
| Lists.FilterNotNull | app/src/main/java/com/angelomarzo/hackernews/data/HackerNewsPagingSource.kt:52 | `filterNotNull` is no longer than its input; every kept value was present in it; all-null input gives nothing |
| Lists.FilterNotNullSnoc | app/src/main/java/com/angelomarzo/hackernews/data/HackerNewsPagingSource.kt:52 | appending one element appends its value exactly when it is present |
| Lists.FilterNotNullAppend | app/src/main/java/com/angelomarzo/hackernews/data/HackerNewsPagingSource.kt:52 | `filterNotNull` of a concatenation is the concatenation of the two filters (no reordering across a split) |
| Lists.FilterNotNullIsSubsequence | app/src/main/java/com/angelomarzo/hackernews/data/HackerNewsPagingSource.kt:52 | the kept values appear in the input in the same order |
| Lists.FilterNotNullKeepsAll | app/src/main/java/com/angelomarzo/hackernews/data/HackerNewsPagingSource.kt:52 | the output is exactly as long as the number of present inputs |
| Lists.FilterNotNullKeepsEach | app/src/main/java/com/angelomarzo/hackernews/data/HackerNewsPagingSource.kt:52 | every present input value is in the output |
| Lists.FilterNotNullAllPresent | app/src/main/java/com/angelomarzo/hackernews/data/HackerNewsPagingSource.kt:52 | with no nulls, the output is the input unwrapped, in order |
| PagingSource.SubList | app/src/main/java/com/angelomarzo/hackernews/data/HackerNewsPagingSource.kt:40 | `subList` succeeds exactly when `0 <= from <= to <= size` and returns those elements; a negative start or an end past the size fails with an index-out-of-bounds exception, and reversed in-range bounds fail with an illegal-argument exception, as `ArrayList.subList` checks them |
| PagingSource.Resolve | app/src/main/java/com/angelomarzo/hackernews/data/HackerNewsPagingSource.kt:45-50 | an id yields a story exactly when its lookup succeeds with a STORY item whose time converts, and the story is that item's `toStory` |
| PagingSource.ResolveAll | app/src/main/java/com/angelomarzo/hackernews/data/HackerNewsPagingSource.kt:42-52 | one result per id, in id order |
| PagingSource.NonEmptyWindowDoesNotWrap | app/src/main/java/com/angelomarzo/hackernews/data/HackerNewsPagingSource.kt:35-36 | a non-empty window at a non-negative offset has a positive size and an end that does not overflow |
| PagingSource.Load | app/src/main/java/com/angelomarzo/hackernews/data/HackerNewsPagingSource.kt:29-69 | an empty or past-the-end window gives an empty page with both keys null; the result is an Error exactly when the key is negative and the window is not empty; otherwise data is at most `toIndex - position <= loadSize` long, `nextKey` is `toIndex` exactly when `toIndex` is below the list size, and `prevKey` is null exactly at offset 0 and is `position - loadSize` otherwise |
| PagingSource.AwaitAll | app/src/main/java/com/angelomarzo/hackernews/data/HackerNewsPagingSource.kt:42-52 | whatever order the per-id tasks complete in, the awaited slots hold each id's result in id order |
| PagingSource.CollectPresent | app/src/main/java/com/angelomarzo/hackernews/data/HackerNewsPagingSource.kt:52 | a loop that appends each present slot computes `filterNotNull` |
| PagingSource.FanOut | app/src/main/java/com/angelomarzo/hackernews/data/HackerNewsPagingSource.kt:42-53 | the fan-out's data is the window's stories, in window order, none missing, for every completion order |
| PagingSource.GetRefreshKey | app/src/main/java/com/angelomarzo/hackernews/data/HackerNewsPagingSource.kt:22-27 | null without an anchor or a closest page; otherwise `prevKey + pageSize` when `prevKey` is present, else `nextKey - pageSize`, else null |
| PagingFacts.LoadWindow | app/src/main/java/com/angelomarzo/hackernews/data/HackerNewsPagingSource.kt:31-62 | for a non-empty window at a non-negative offset, the page is the filtered resolution of `ids[position..toIndex]` with the two keys computed from the requested size |
| PagingFacts.LoadKeepsWindowOrder | app/src/main/java/com/angelomarzo/hackernews/data/HackerNewsPagingSource.kt:40-52 | the data is a subsequence of the window's results, has one entry per resolved story, and contains every resolved story |
| PagingFacts.MissingKeyIsOffsetZero | app/src/main/java/com/angelomarzo/hackernews/data/HackerNewsPagingSource.kt:31 | a load with no key is the load at key 0 |
| PagingFacts.AllLookupsFailGivesEmptyData | app/src/main/java/com/angelomarzo/hackernews/data/HackerNewsPagingSource.kt:44-50 | if every lookup throws, a non-empty window is still a page, with empty data |
| PagingFacts.AllStoriesKeptInOrder | app/src/main/java/com/angelomarzo/hackernews/data/HackerNewsPagingSource.kt:42-53 | if every id resolves to a story, the data is exactly those stories in id order |
| PagingFacts.NegativeKeyFails | app/src/main/java/com/angelomarzo/hackernews/data/HackerNewsPagingSource.kt:35-67 | a negative key with a positive size is an Error result, never a page |
| PagingFacts.ShortOffsetPrevKeyFails | app/src/main/java/com/angelomarzo/hackernews/data/HackerNewsPagingSource.kt:35-67 | a page starting strictly between 0 and its size has a negative, unclamped `prevKey`, and loading that key is an Error |
| PagingFacts.OverflowingWindowIsEmpty | app/src/main/java/com/angelomarzo/hackernews/data/HackerNewsPagingSource.kt:35-38 | when `position + loadSize` overflows `Int`, the load is the empty terminal page |
| PagingFacts.NextThenPrevReturns | app/src/main/java/com/angelomarzo/hackernews/data/HackerNewsPagingSource.kt:55-56 | with a fixed size, the page at a non-final page's `nextKey` has that first page's key as its `prevKey` |
| PagingFacts.ResolveAllSplit | app/src/main/java/com/angelomarzo/hackernews/data/HackerNewsPagingSource.kt:42-52 | resolving a window is resolving its two halves in sequence |
| PagingFacts.DoubleWindowIsTwoPages | app/src/main/java/com/angelomarzo/hackernews/data/HackerNewsPagingSource.kt:35-56 | a load of twice the size has the data of the two consecutive loads it covers, concatenated, and the second one's `nextKey`, from any non-negative key, including when the first page already reaches the end of the list |
| PagingFacts.TilingWithinList | app/src/main/java/com/angelomarzo/hackernews/data/HackerNewsPagingSource.kt:35-56 | the same tiling when the second page starts inside the list: the double window is split at the page boundary |
| PagingFacts.TilingPastEnd | app/src/main/java/com/angelomarzo/hackernews/data/HackerNewsPagingSource.kt:35-56 | the same tiling when the first page reaches the end: the second load is the empty page and both `nextKey`s are null |
| PagingFacts.RefreshKeyReturnsToPage | app/src/main/java/com/angelomarzo/hackernews/data/HackerNewsPagingSource.kt:22-27 | for an anchor whose closest page was loaded at `key` with the configured page size, the refresh key is `key`, or null when that page is the whole list |
| PagingFacts.FirstPageRefreshKey | app/src/main/java/com/angelomarzo/hackernews/data/HackerNewsPagingSource.kt:22-27 | for an anchor whose closest page is the keyless first page loaded with `loadSize`, the refresh key is `loadSize - pageSize`, which is 0 exactly when the two sizes agree |
| Repository.FetchIds | app/src/main/java/com/angelomarzo/hackernews/data/HackerNewsRepository.kt:30-40 | Top, New and Best page the ids of the top-, new- and best-stories endpoints respectively |
| Repository.FetchIdsReadsOwnEndpoint | app/src/main/java/com/angelomarzo/hackernews/data/HackerNewsRepository.kt:30-40 | top, new and best read exactly the top-, new- and best-stories endpoints respectively, and nothing else |
| Repository.GetStory | app/src/main/java/com/angelomarzo/hackernews/data/HackerNewsRepository.kt:42-45 | `getStory(id)` is `toStory` of the fetched item: a failed lookup propagates its exception; a non-story item gives null; a story item whose time is out of Instant's range throws the date-time exception; any other story item gives the story with every field copied |
| Repository.ResolveIsGetStoryOrNull | app/src/main/java/com/angelomarzo/hackernews/data/HackerNewsPagingSource.kt:45-50 | the paging source's per-id task is `getStory` with every exception turned into null |
| Repository.NewSource | app/src/main/java/com/angelomarzo/hackernews/data/HackerNewsRepository.kt:54-56 | a freshly built source has nothing cached |
| Repository.LoadStories | app/src/main/java/com/angelomarzo/hackernews/data/HackerNewsRepository.kt:56-67 | the endpoint is called exactly when nothing is cached; a cached list is reused unchanged; a failed fetch returns its exception as Error and leaves the cache empty; a successful one is cached; with ids available the result is `HackerNewsPagingSource(api, ids).load(params)` |
| Repository.WrapperRefreshKey | app/src/main/java/com/angelomarzo/hackernews/data/HackerNewsRepository.kt:69-71 | the wrapper's refresh key is always null |
| Repository.WrapperRefreshLoadsFromStart | app/src/main/java/com/angelomarzo/hackernews/data/HackerNewsRepository.kt:69-71 | a refresh through the wrapper is the load at offset 0, whatever the anchor |
| Repository.RunLoads | app/src/main/java/com/angelomarzo/hackernews/data/HackerNewsRepository.kt:56-67 | successive loads on one source give one result per call and at most one id fetch per call |
| Repository.CachedSourceIsStable | app/src/main/java/com/angelomarzo/hackernews/data/HackerNewsRepository.kt:56-60 | once cached, the list never changes, the endpoint is never called again, and every load pages that same list |
| Repository.CacheHoldsFirstSuccess | app/src/main/java/com/angelomarzo/hackernews/data/HackerNewsRepository.kt:56-65 | from an empty cache, a run ends holding the first successfully fetched list, after exactly one endpoint call per failed attempt plus one for that success |
| Repository.RetryAfterIdFetchFailure | app/src/main/java/com/angelomarzo/hackernews/data/HackerNewsRepository.kt:59-66 | after an id-fetch Error, the next load fetches again and, on success, caches and pages the new list |
| Scenarios.OneToHundred | app/src/test/java/com/angelomarzo/hackernews/HackerNewspagingSourceTest.kt:29 | the test's id list holds 1..100 in order |
| Scenarios.FirstLoadScenario | app/src/test/java/com/angelomarzo/hackernews/HackerNewspagingSourceTest.kt:48-73 | key 0, size 20, stories for ids 1..20: data is their stories in order, `prevKey` null, `nextKey` 20 |
| Scenarios.WindowDataIsCopies | app/src/test/java/com/angelomarzo/hackernews/HackerNewspagingSourceTest.kt:66 | when every id in a window answers with a story item, the data is the `toStory` copies of those items, in order |
| Scenarios.StoryAnswersResolve | app/src/test/java/com/angelomarzo/hackernews/HackerNewspagingSourceTest.kt:51-53 | an id answered with a story item resolves to that item's copy |
| Scenarios.AllLookupsFailScenario | app/src/test/java/com/angelomarzo/hackernews/HackerNewspagingSourceTest.kt:75-95 | every lookup throws: empty data, `prevKey` null, `nextKey` 20 |
| Scenarios.SecondPageScenario | app/src/test/java/com/angelomarzo/hackernews/HackerNewspagingSourceTest.kt:97-116 | key 20, size 20: `nextKey` 40 and `prevKey` 0 |
| Scenarios.PastTheEndScenario | app/src/test/java/com/angelomarzo/hackernews/HackerNewspagingSourceTest.kt:118-140 | key 100 on 100 ids: empty data, both keys null |
| Scenarios.IdListFailureScenario | app/src/main/java/com/angelomarzo/hackernews/data/HackerNewsRepository.kt:59-65 | an id-list transport failure is an Error carrying it, not an empty page |
| Scenarios.InitialLoadCoversTwoPages | app/src/main/java/com/angelomarzo/hackernews/data/HackerNewsRepository.kt:27-53 | the initial load size is twice the page size of 20; the first load covers ids 0..39 with `nextKey` 40, and the next append points back to 20 |
| Scenarios.InitialPageRefreshesOffPage | app/src/main/java/com/angelomarzo/hackernews/data/HackerNewsRepository.kt:49-53 | with the initial size 40 and page size 20, a refresh anchored on the first page asks for offset 20, whose reload has `prevKey` -20, and prepending from -20 is an Error |

## Left out

- Compose UI, the activity, navigation and theming: these only render pages and send intents.
- `HackerNewsViewModel`: this is reactive wiring (`flatMapLatest`, `cachedIn`, an event `Channel`). Only its `StoryType` enum is reused, as the listing type.
- `Pager`, `PagingData`, load-state lanes and prefetching belong to the Paging library. `PagingState.closestPageToPosition` is passed in as a function.
- `prefetchDistance` (5) appears in `STORY_PAGING`, but nothing in the model reads it. The library's prefetch logic consumes it.
- Retrofit, OkHttp and dependency wiring are left out. The API service is reduced to the id-list outcomes and the item lookup.
- Coroutine scheduling and cancellation are left out. The per-item `catch` also swallows cancellation; that is not modelled.
- Logging (`Log.e`) is left out.
- The model does not tell `IOException` apart from other exceptions. Both become `Error`.
- `java.time.Instant` is kept as whole epoch seconds.
- Concurrent `load` calls on one wrapper source are left out. Two loads racing before the first success may both fetch the ids. The model runs loads one after another.
