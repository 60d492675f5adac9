/**
 * `HackerNewsPagingSource`: turns a window of an ordered id list into one page
 * of stories, and maps an anchor position back to a page key on refresh.
 */
module PagingSource {
  import opened Outcomes
  import opened KotlinInt
  import opened Model
  import opened Mapper
  import opened Lists

  /** A Kotlin `List<Int>` of item ids; its size is itself an `Int`. */
  type IdList = s: seq<Int32> | |s| <= INT_MAX witness []

  /** The item endpoint as it answers at the time of a load. */
  type ItemFetcher = Int32 -> Result<HackerNewsItem, Throwable>

  /** What the pager asks for: an optional offset key and a window size. */
  datatype LoadParams = LoadParams(key: Option<Int32>, loadSize: Int32)

  /** One loaded page: its stories and the keys of its neighbours. */
  datatype Page = Page(data: seq<Story>, prevKey: Option<Int32>, nextKey: Option<Int32>)

  /** `LoadResult.Page` or `LoadResult.Error`. */
  datatype LoadResult = Loaded(page: Page) | Error(cause: Throwable)

  /** The empty, terminal page. */
  const EMPTY_PAGE := Page([], None, None)

  /** The offset a load starts at: a missing key means the start of the list. */
  function Position(params: LoadParams): Int32 {
    params.key.GetOr(0)
  }

  /** The exclusive end of the window, `(position + loadSize).coerceAtMost(size)` with Int wrap-around. */
  function WindowEnd(position: Int32, loadSize: Int32, size: nat): int {
    Min(Add32(position, loadSize), size)
  }

  /**
   * Java's `ArrayList.subList`, which throws unless `0 <= from <= to <= size`:
   * an out-of-range bound is checked first (index out of bounds), reversed
   * bounds after (illegal argument).
   */
  function SubList(ids: seq<Int32>, from: int, to: int): (r: Result<seq<Int32>, Throwable>)
    ensures r.Success? <==> 0 <= from <= to <= |ids|
    ensures r.Success? ==> |r.value| == to - from && forall i :: 0 <= i < to - from ==> r.value[i] == ids[from + i]
    ensures (from < 0 || to > |ids|) ==> r == Failure(IndexOutOfBounds(from, to, |ids|))
    ensures 0 <= from && to <= |ids| && from > to ==> r == Failure(IllegalArgument(from, to))
  {
    if from < 0 || to > |ids| then Failure(IndexOutOfBounds(from, to, |ids|))
    else if from > to then Failure(IllegalArgument(from, to))
    else Success(ids[from..to])
  }

  /**
   * The per-id task of the fan-out: fetch the item and map it, turning any
   * exception (from the lookup or from the mapping) into `null`.
   */
  function Resolve(fetchItem: ItemFetcher, id: Int32): (r: Option<Story>)
    ensures r.Some? <==>
      && fetchItem(id).Success?
      && fetchItem(id).value.itemType == Some(ItemType.STORY)
      && TimeConvertible(fetchItem(id).value.time)
    ensures r.Some? ==> ToStory(fetchItem(id).value) == Success(r)
  {
    match fetchItem(id)
    case Failure(_) => None
    case Success(item) =>
      match ToStory(item)
      case Failure(_) => None
      case Success(story) => story
  }

  /** `pageIds.map { async { … } }.awaitAll()`: one result slot per id, in id order. */
  function ResolveAll(fetchItem: ItemFetcher, pageIds: seq<Int32>): (r: seq<Option<Story>>)
    ensures |r| == |pageIds|
    ensures forall i :: 0 <= i < |pageIds| ==> r[i] == Resolve(fetchItem, pageIds[i])
  {
    seq(|pageIds|, i requires 0 <= i < |pageIds| => Resolve(fetchItem, pageIds[i]))
  }

  /** A window that is not empty and starts at a non-negative offset is not affected by Int wrap-around. */
  lemma NonEmptyWindowDoesNotWrap(position: Int32, loadSize: Int32, size: nat)
    requires 0 <= position < WindowEnd(position, loadSize, size)
    ensures 0 < loadSize
    ensures position + loadSize <= INT_MAX
    ensures WindowEnd(position, loadSize, size) == Min(position + loadSize, size)
  {
  }

  /**
   * `HackerNewsPagingSource.load`. An empty or past-the-end window gives the
   * empty terminal page; otherwise the window's ids are resolved, failures and
   * non-stories are dropped, and the neighbour keys are computed. The only
   * exception the outer `catch` can see is `subList` rejecting a negative key.
   */
  function Load(fetchItem: ItemFetcher, ids: IdList, params: LoadParams): (r: LoadResult)
    ensures Position(params) >= WindowEnd(Position(params), params.loadSize, |ids|) ==> r == Loaded(EMPTY_PAGE)
    ensures r.Error? <==> Position(params) < 0 && Position(params) < WindowEnd(Position(params), params.loadSize, |ids|)
    ensures r.Error? ==> r.cause.IndexOutOfBounds?
    ensures r.Loaded? && Position(params) < WindowEnd(Position(params), params.loadSize, |ids|) ==>
      var position, toIndex := Position(params), WindowEnd(Position(params), params.loadSize, |ids|);
      && 0 <= position < toIndex <= |ids|
      && toIndex - position <= params.loadSize
      && |r.page.data| <= toIndex - position
      && (r.page.nextKey.Some? <==> toIndex < |ids|)
      && (r.page.nextKey.Some? ==> r.page.nextKey.value == toIndex)
      && (r.page.prevKey.None? <==> position == 0)
      && (r.page.prevKey.Some? ==> r.page.prevKey.value == position - params.loadSize)
  {
    var position := Position(params);
    var toIndex := WindowEnd(position, params.loadSize, |ids|);
    if position >= toIndex then Loaded(EMPTY_PAGE)
    else
      match SubList(ids, position, toIndex)
      case Failure(e) => Error(e)
      case Success(pageIds) =>
        NonEmptyWindowDoesNotWrap(position, params.loadSize, |ids|);
        assert pageIds == ids[position..toIndex];
        var stories := FilterNotNull(ResolveAll(fetchItem, pageIds));
        var nextKey := if toIndex >= |ids| then None else Some(toIndex);
        var prevKey := if position == 0 then None else Some(Sub32(position, params.loadSize));
        Loaded(Page(stories, prevKey, nextKey))
  }

  /**
   * The fan-out as it runs: the per-id tasks finish in any order (`completion`
   * lists the slot each finishing task writes) and every result goes to the
   * slot of its id, so the slots come out in id order whatever the completion
   * order was.
   */
  method AwaitAll(fetchItem: ItemFetcher, pageIds: seq<Int32>, completion: seq<nat>) returns (slots: seq<Option<Story>>)
    requires forall k :: 0 <= k < |completion| ==> completion[k] < |pageIds|
    requires forall i :: 0 <= i < |pageIds| ==> i in completion
    ensures slots == ResolveAll(fetchItem, pageIds)
  {
    slots := seq(|pageIds|, _ => None);
    var k := 0;
    while k < |completion|
      invariant 0 <= k <= |completion|
      invariant |slots| == |pageIds|
      invariant forall i :: 0 <= i < |pageIds| && i in completion[..k] ==> slots[i] == Resolve(fetchItem, pageIds[i])
    {
      var i := completion[k];
      slots := slots[i := Resolve(fetchItem, pageIds[i])];
      assert completion[..k + 1] == completion[..k] + [i];
      k := k + 1;
    }
    assert completion[..k] == completion;
  }

  /** `filterNotNull` over the awaited slots, as a loop that appends each present story. */
  method CollectPresent(slots: seq<Option<Story>>) returns (stories: seq<Story>)
    ensures stories == FilterNotNull(slots)
  {
    stories := [];
    var j := 0;
    while j < |slots|
      invariant 0 <= j <= |slots|
      invariant stories == FilterNotNull(slots[..j])
    {
      assert slots[..j + 1] == slots[..j] + [slots[j]];
      FilterNotNullSnoc(slots[..j], slots[j]);
      if slots[j].Some? {
        stories := stories + [slots[j].value];
      }
      j := j + 1;
    }
    assert slots[..j] == slots;
  }

  /** The whole fan-out: the page data `load` computes, whatever order the lookups complete in. */
  method FanOut(fetchItem: ItemFetcher, pageIds: seq<Int32>, completion: seq<nat>) returns (stories: seq<Story>)
    requires forall k :: 0 <= k < |completion| ==> completion[k] < |pageIds|
    requires forall i :: 0 <= i < |pageIds| ==> i in completion
    ensures IsSubsequence(Lift(stories), ResolveAll(fetchItem, pageIds))
    ensures |stories| == CountSome(ResolveAll(fetchItem, pageIds))
    ensures stories == FilterNotNull(ResolveAll(fetchItem, pageIds))
  {
    var slots := AwaitAll(fetchItem, pageIds, completion);
    stories := CollectPresent(slots);
    FilterNotNullIsSubsequence(slots);
    FilterNotNullKeepsAll(slots);
  }

  /** What `getRefreshKey` sees: the anchor, the pager's closest-page lookup, and the configured page size. */
  datatype PagingState = PagingState(
    anchorPosition: Option<Int32>,
    closestPageToPosition: Int32 -> Option<Page>,
    pageSize: Int32)

  /**
   * `HackerNewsPagingSource.getRefreshKey`: the closest page's `prevKey` moved
   * one page forward, or failing that its `nextKey` moved one page back.
   */
  function GetRefreshKey(state: PagingState): (r: Option<Int32>)
    ensures state.anchorPosition.None? ==> r.None?
    ensures state.anchorPosition.Some? ==>
      var closest := state.closestPageToPosition(state.anchorPosition.value);
      && (closest.None? ==> r.None?)
      && (closest.Some? ==>
          && (r.Some? <==> closest.value.prevKey.Some? || closest.value.nextKey.Some?)
          && (closest.value.prevKey.Some? ==> r.value == Add32(closest.value.prevKey.value, state.pageSize))
          && (closest.value.prevKey.None? && closest.value.nextKey.Some? ==>
                r.value == Sub32(closest.value.nextKey.value, state.pageSize)))
  {
    match state.anchorPosition
    case None => None
    case Some(anchor) =>
      match state.closestPageToPosition(anchor)
      case None => None
      case Some(page) =>
        if page.prevKey.Some? then Some(Add32(page.prevKey.value, state.pageSize))
        else if page.nextKey.Some? then Some(Sub32(page.nextKey.value, state.pageSize))
        else None
  }
}
