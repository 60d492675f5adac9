/**
 * `NetworkHackerNewsRepository`: which endpoint each listing reads, the
 * single-story lookup, the paging configuration, and the paging source built
 * for a listing, which caches the listing's id list after the first
 * successful fetch and delegates every load to `HackerNewsPagingSource`.
 */
module Repository {
  import opened Outcomes
  import opened KotlinInt
  import opened Model
  import opened Mapper
  import opened PagingSource

  /** The three listings the app shows. */
  datatype StoryType = Top | New | Best

  /**
   * The remote API as it answers at one moment: the outcome each id-list
   * endpoint would give if called now, and the item lookup.
   */
  datatype ApiService = ApiService(
    topStories: Result<IdList, Throwable>,
    newStories: Result<IdList, Throwable>,
    bestStories: Result<IdList, Throwable>,
    getStory: ItemFetcher)

  /** The id-list fetcher each listing's pager is built with. */
  function FetchIds(listing: StoryType, api: ApiService): (r: Result<IdList, Throwable>)
    ensures listing == Top ==> r == api.topStories
    ensures listing == New ==> r == api.newStories
    ensures listing == Best ==> r == api.bestStories
  {
    match listing
    case Top => api.topStories
    case New => api.newStories
    case Best => api.bestStories
  }

  /**
   * Each listing's ids are its own endpoint's answer (top, new and best stories respectively),
   * so changing the other two endpoints changes nothing.
   */
  lemma FetchIdsReadsOwnEndpoint(listing: StoryType, api: ApiService, other: ApiService)
    requires listing == Top ==> other.topStories == api.topStories
    requires listing == New ==> other.newStories == api.newStories
    requires listing == Best ==> other.bestStories == api.bestStories
    ensures listing == Top ==> FetchIds(listing, api) == api.topStories
    ensures listing == New ==> FetchIds(listing, api) == api.newStories
    ensures listing == Best ==> FetchIds(listing, api) == api.bestStories
    ensures FetchIds(listing, other) == FetchIds(listing, api)
  {
  }

  /** The Pager configuration used for every listing. */
  datatype PagingConfig = PagingConfig(pageSize: Int32, initialLoadSize: Int32, prefetchDistance: Int32)

  const PAGE_SIZE: Int32 := 20

  /** `PagingConfig(pageSize = PAGE_SIZE, initialLoadSize = PAGE_SIZE * 2, prefetchDistance = 5)`. */
  const STORY_PAGING: PagingConfig := PagingConfig(PAGE_SIZE, PAGE_SIZE * 2, 5)

  /**
   * `getStory(id)`: fetch the item and map it. Unlike the paging source's
   * per-item guard, nothing is caught here: lookup and mapping exceptions
   * reach the caller.
   */
  function GetStory(api: ApiService, id: Int32): (r: Result<Option<Story>, Throwable>)
    ensures api.getStory(id).Failure? ==> r == Failure(api.getStory(id).error)
    ensures api.getStory(id).Success? ==> r == ToStory(api.getStory(id).value)
    ensures api.getStory(id).Success? ==>
      var item := api.getStory(id).value;
      && (item.itemType != Some(ItemType.STORY) ==> r == Success(None))
      && (item.itemType == Some(ItemType.STORY) && !TimeConvertible(item.time) ==>
            r == Failure(DateTimeFailure(item.time.value)))
      && (item.itemType == Some(ItemType.STORY) && TimeConvertible(item.time) ==>
            && r.Success? && r.value.Some?
            && var s := r.value.value;
               && s.id == item.id && s.author == item.author && s.title == item.title && s.url == item.url
               && s.score == item.score && s.descendants == item.descendants && s.text == item.text
               && (s.time.Some? <==> item.time.Some?)
               && (s.time.Some? ==> s.time.value.epochSecond == item.time.value))
  {
    match api.getStory(id)
    case Failure(e) => Failure(e)
    case Success(item) => ToStory(item)
  }

  /** The paging source's per-id task is `getStory` with every exception turned into `null`. */
  lemma ResolveIsGetStoryOrNull(api: ApiService, id: Int32)
    ensures Resolve(api.getStory, id) == (match GetStory(api, id) case Success(s) => s case Failure(_) => None)
  {
  }

  /** The paging source built for one listing, with its id-list cache (`storyIds`). */
  datatype StorySource = StorySource(listing: StoryType, storyIds: Option<IdList>)

  /** A fresh source, as the pager's factory creates it: nothing cached yet. */
  function NewSource(listing: StoryType): (s: StorySource)
    ensures s.listing == listing && s.storyIds.None?
  {
    StorySource(listing, None)
  }

  /** The outcome of one load: the source afterwards, the result, and whether the id-list endpoint was called. */
  datatype Step = Step(source: StorySource, result: LoadResult, fetchedIds: bool)

  /**
   * The wrapper's `load`: use the cached ids, or fetch them (caching them
   * only on success, returning the fetch's exception as an `Error`
   * otherwise), then delegate to `HackerNewsPagingSource(api, ids).load`.
   */
  function LoadStories(src: StorySource, api: ApiService, params: LoadParams): (s: Step)
    ensures s.source.listing == src.listing
    ensures s.fetchedIds <==> src.storyIds.None?
    ensures src.storyIds.Some? ==> s.source == src && s.result == Load(api.getStory, src.storyIds.value, params)
    ensures src.storyIds.None? && FetchIds(src.listing, api).Failure? ==>
      s.source == src && s.result == Error(FetchIds(src.listing, api).error)
    ensures src.storyIds.None? && FetchIds(src.listing, api).Success? ==>
      && s.source.storyIds == Some(FetchIds(src.listing, api).value)
      && s.result == Load(api.getStory, FetchIds(src.listing, api).value, params)
  {
    match src.storyIds
    case Some(ids) => Step(src, Load(api.getStory, ids, params), false)
    case None =>
      match FetchIds(src.listing, api)
      case Failure(e) => Step(src, Error(e), true)
      case Success(ids) => Step(src.(storyIds := Some(ids)), Load(api.getStory, ids, params), true)
  }

  /** The wrapper's `getRefreshKey`: always `null`. */
  function WrapperRefreshKey(state: PagingState): (r: Option<Int32>)
    ensures r.None?
  {
    None
  }

  /** So a refresh through the wrapper reloads from the start of the list, whatever the anchor. */
  lemma WrapperRefreshLoadsFromStart(src: StorySource, api: ApiService, state: PagingState, loadSize: Int32)
    ensures LoadStories(src, api, LoadParams(WrapperRefreshKey(state), loadSize))
         == LoadStories(src, api, LoadParams(Some(0), loadSize))
  {
  }

  /** One call to `load`: the API as it answers at that moment, and the params. */
  datatype Call = Call(api: ApiService, params: LoadParams)

  /** A run of successive loads on one source. */
  datatype Run = Run(source: StorySource, results: seq<LoadResult>, idFetches: nat)

  /** The loads of `calls`, one after the other, on the same source. */
  function RunLoads(src: StorySource, calls: seq<Call>): (run: Run)
    ensures |run.results| == |calls|
    ensures run.source.listing == src.listing
    ensures run.idFetches <= |calls|
    decreases |calls|
  {
    if |calls| == 0 then Run(src, [], 0)
    else
      var step := LoadStories(src, calls[0].api, calls[0].params);
      var rest := RunLoads(step.source, calls[1..]);
      Run(rest.source, [step.result] + rest.results, (if step.fetchedIds then 1 else 0) + rest.idFetches)
  }

  /** The id list of the first call whose endpoint answers successfully, if any. */
  function FirstSuccess(listing: StoryType, calls: seq<Call>): Option<IdList>
    decreases |calls|
  {
    if |calls| == 0 then None
    else if FetchIds(listing, calls[0].api).Success? then Some(FetchIds(listing, calls[0].api).value)
    else FirstSuccess(listing, calls[1..])
  }

  /** The number of calls up to and including the first one whose endpoint answers successfully (all of them if none does). */
  function CallsUntilSuccess(listing: StoryType, calls: seq<Call>): nat
    decreases |calls|
  {
    if |calls| == 0 then 0
    else if FetchIds(listing, calls[0].api).Success? then 1
    else 1 + CallsUntilSuccess(listing, calls[1..])
  }

  /** Once the ids are cached, the cache never changes, the endpoint is never called again, and every load pages that same list. */
  lemma {:induction false} CachedSourceIsStable(src: StorySource, calls: seq<Call>)
    requires src.storyIds.Some?
    ensures RunLoads(src, calls).source == src
    ensures RunLoads(src, calls).idFetches == 0
    ensures forall i :: 0 <= i < |calls| ==>
      RunLoads(src, calls).results[i] == Load(calls[i].api.getStory, src.storyIds.value, calls[i].params)
    decreases |calls|
  {
    if |calls| > 0 {
      CachedSourceIsStable(src, calls[1..]);
      var run := RunLoads(src, calls);
      forall i | 0 <= i < |calls|
        ensures run.results[i] == Load(calls[i].api.getStory, src.storyIds.value, calls[i].params)
      {
        if i > 0 {
          assert calls[1..][i - 1] == calls[i];
        }
      }
    }
  }

  /**
   * From a fresh cache, a run of loads ends holding exactly the first
   * successfully fetched id list, having called the endpoint once per failed
   * attempt plus once for that success: failures are retried, a success is
   * never repeated.
   */
  lemma {:induction false} CacheHoldsFirstSuccess(src: StorySource, calls: seq<Call>)
    requires src.storyIds.None?
    ensures RunLoads(src, calls).source.storyIds == FirstSuccess(src.listing, calls)
    ensures RunLoads(src, calls).idFetches == CallsUntilSuccess(src.listing, calls)
    decreases |calls|
  {
    if |calls| > 0 {
      var step := LoadStories(src, calls[0].api, calls[0].params);
      if step.source.storyIds.Some? {
        CachedSourceIsStable(step.source, calls[1..]);
      } else {
        CacheHoldsFirstSuccess(step.source, calls[1..]);
      }
    }
  }

  /**
   * A failed id fetch is not cached: after an `Error`, the next load calls the
   * endpoint again and, if it now answers, pages the fresh list.
   */
  lemma RetryAfterIdFetchFailure(listing: StoryType, failing: ApiService, later: ApiService, p1: LoadParams, p2: LoadParams)
    requires FetchIds(listing, failing).Failure?
    requires FetchIds(listing, later).Success?
    ensures var first := LoadStories(NewSource(listing), failing, p1);
      && first.result == Error(FetchIds(listing, failing).error)
      && first.source == NewSource(listing)
      && var second := LoadStories(first.source, later, p2);
         && second.fetchedIds
         && second.source.storyIds == Some(FetchIds(listing, later).value)
         && second.result == Load(later.getStory, FetchIds(listing, later).value, p2)
  {
  }
}
