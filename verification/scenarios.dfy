/**
 * The paging source's unit-test scenarios, stated for every lookup function
 * that behaves as each scenario's mock does, over the ids 1..100.
 */
module Scenarios {
  import opened Outcomes
  import opened KotlinInt
  import opened Model
  import opened Mapper
  import opened Lists
  import opened PagingSource
  import opened PagingFacts
  import opened Repository

  /** The ids 1..100, in order. */
  function OneToHundred(): (ids: IdList)
    ensures |ids| == 100
    ensures forall i :: 0 <= i < 100 ==> ids[i] == i + 1
  {
    seq(100, i requires 0 <= i < 100 => (i + 1) as Int32)
  }

  /** A lookup that answers the id with a story item of that id and no `time`. */
  predicate AnswersStory(fetchItem: ItemFetcher, id: Int32) {
    && fetchItem(id).Success?
    && fetchItem(id).value.id == id
    && fetchItem(id).value.itemType == Some(ItemType.STORY)
    && fetchItem(id).value.time.None?
  }

  /** First load at key 0, size 20, every lookup a story: the stories of ids 1..20 in order, no previous page, next key 20. */
  lemma FirstLoadScenario(fetchItem: ItemFetcher)
    requires forall i :: 0 <= i < 20 ==> AnswersStory(fetchItem, OneToHundred()[i])
    ensures var r := Load(fetchItem, OneToHundred(), LoadParams(Some(0), 20));
      && r.Loaded?
      && |r.page.data| == 20
      && (forall i :: 0 <= i < 20 ==>
            fetchItem(OneToHundred()[i]).Success? && r.page.data[i] == CopyFields(fetchItem(OneToHundred()[i]).value, None))
      && (forall i :: 0 <= i < 20 ==> r.page.data[i].id == i + 1)
      && r.page.prevKey == None
      && r.page.nextKey == Some(20)
  {
    var ids := OneToHundred();
    var params := LoadParams(Some(0), 20);
    assert WindowEnd(0, 20, 100) == 20;
    var window := ids[0..20];
    StoryAnswersResolve(fetchItem, window);
    AllStoriesKeptInOrder(fetchItem, ids, params);
    LoadWindow(fetchItem, ids, params);
    var data := Load(fetchItem, ids, params).page.data;
    WindowDataIsCopies(fetchItem, window, data);
  }

  /** Data whose lifted form is the resolution of story-answered ids is the copies of those items, ids included. */
  lemma WindowDataIsCopies(fetchItem: ItemFetcher, window: seq<Int32>, data: seq<Story>)
    requires forall i :: 0 <= i < |window| ==> AnswersStory(fetchItem, window[i])
    requires forall i :: 0 <= i < |window| ==>
      fetchItem(window[i]).Success? && Resolve(fetchItem, window[i]) == Some(CopyFields(fetchItem(window[i]).value, None))
    requires Lift(data) == ResolveAll(fetchItem, window)
    ensures |data| == |window|
    ensures forall i :: 0 <= i < |window| ==> data[i] == CopyFields(fetchItem(window[i]).value, None)
    ensures forall i :: 0 <= i < |window| ==> data[i].id == window[i]
  {
    forall i | 0 <= i < |window|
      ensures data[i] == CopyFields(fetchItem(window[i]).value, None)
    {
      assert Lift(data)[i] == Some(data[i]);
    }
  }

  /** Ids answered with story items resolve to copies of those items. */
  lemma StoryAnswersResolve(fetchItem: ItemFetcher, ids: seq<Int32>)
    requires forall i :: 0 <= i < |ids| ==> AnswersStory(fetchItem, ids[i])
    ensures forall i :: 0 <= i < |ids| ==>
      fetchItem(ids[i]).Success? && Resolve(fetchItem, ids[i]) == Some(CopyFields(fetchItem(ids[i]).value, None))
  {
  }

  /** Every lookup throws: still a page, with no data, no previous page and next key 20. */
  lemma AllLookupsFailScenario(fetchItem: ItemFetcher)
    requires forall id :: fetchItem(id).Failure?
    ensures Load(fetchItem, OneToHundred(), LoadParams(Some(0), 20)) == Loaded(Page([], None, Some(20)))
  {
    assert WindowEnd(0, 20, 100) == 20;
    AllLookupsFailGivesEmptyData(fetchItem, OneToHundred(), LoadParams(Some(0), 20));
  }

  /** Append at key 20, size 20: next key 40, previous key 0, whatever the lookups do. */
  lemma SecondPageScenario(fetchItem: ItemFetcher)
    ensures var r := Load(fetchItem, OneToHundred(), LoadParams(Some(20), 20));
      r.Loaded? && r.page.nextKey == Some(40) && r.page.prevKey == Some(0)
  {
    assert WindowEnd(20, 20, 100) == 40;
  }

  /** Append at key 100 on 100 ids: the empty terminal page. */
  lemma PastTheEndScenario(fetchItem: ItemFetcher)
    ensures Load(fetchItem, OneToHundred(), LoadParams(Some(100), 20)) == Loaded(EMPTY_PAGE)
  {
  }

  /** The id list itself fails: the load is an `Error` carrying that exception, not an empty page. */
  lemma IdListFailureScenario(listing: StoryType, api: ApiService, params: LoadParams, message: string)
    requires FetchIds(listing, api) == Failure(NetworkFailure(message))
    ensures LoadStories(NewSource(listing), api, params).result == Error(NetworkFailure(message))
  {
  }

  /**
   * The pager's first load uses `initialLoadSize`, twice the page size: on a
   * list of more than 40 ids it covers ids 0..39, and the following append,
   * at page size, starts at 40 and points back to 20.
   */
  lemma InitialLoadCoversTwoPages(src: StorySource, api: ApiService, ids: IdList)
    requires src.storyIds == Some(ids)
    requires |ids| > 2 * PAGE_SIZE
    ensures STORY_PAGING.initialLoadSize == 2 * STORY_PAGING.pageSize
    ensures var first := LoadStories(src, api, LoadParams(None, STORY_PAGING.initialLoadSize)).result;
      && first.Loaded?
      && first.page.prevKey == None
      && first.page.nextKey == Some(40)
      && var next := LoadStories(src, api, LoadParams(first.page.nextKey, STORY_PAGING.pageSize)).result;
         next.Loaded? && next.page.prevKey == Some(20)
  {
    assert WindowEnd(0, 40, |ids|) == 40;
    assert WindowEnd(40, 20, |ids|) > 40;
  }

  /**
   * The pager's first load uses the initial size of 40 while the configured
   * page size is 20, so a refresh anchored on that page asks for offset 20,
   * not 0. Reloaded there with the initial size, its `prevKey` is -20, and
   * prepending from -20 is an `Error`.
   */
  lemma InitialPageRefreshesOffPage(fetchItem: ItemFetcher, ids: IdList, state: PagingState)
    requires |ids| > STORY_PAGING.initialLoadSize
    requires state.pageSize == STORY_PAGING.pageSize
    requires state.anchorPosition.Some?
    requires state.closestPageToPosition(state.anchorPosition.value)
          == Some(Load(fetchItem, ids, LoadParams(None, STORY_PAGING.initialLoadSize)).page)
    ensures GetRefreshKey(state) == Some(20)
    ensures var refresh := Load(fetchItem, ids, LoadParams(Some(20), STORY_PAGING.initialLoadSize));
      && refresh.Loaded?
      && refresh.page.prevKey == Some(-20)
      && Load(fetchItem, ids, LoadParams(Some(-20), STORY_PAGING.pageSize)).Error?
  {
    FirstPageRefreshKey(fetchItem, ids, STORY_PAGING.initialLoadSize, state);
    assert WindowEnd(20, 40, |ids|) > 20;
    LoadWindow(fetchItem, ids, LoadParams(Some(20), STORY_PAGING.initialLoadSize));
  }
}
