/** Properties of `HackerNewsPagingSource` that relate several loads, or a load and a refresh. */
module PagingFacts {
  import opened Outcomes
  import opened KotlinInt
  import opened Lists
  import opened PagingSource

  /** The page a non-empty window at a non-negative offset produces, spelled out. */
  lemma LoadWindow(fetchItem: ItemFetcher, ids: IdList, params: LoadParams)
    requires 0 <= Position(params) < WindowEnd(Position(params), params.loadSize, |ids|)
    ensures var position, toIndex := Position(params), WindowEnd(Position(params), params.loadSize, |ids|);
      && toIndex == Min(position + params.loadSize, |ids|)
      && Load(fetchItem, ids, params) == Loaded(Page(
           FilterNotNull(ResolveAll(fetchItem, ids[position..toIndex])),
           if position == 0 then None else Some(position - params.loadSize),
           if toIndex < |ids| then Some(toIndex) else None))
  {
    var position, toIndex := Position(params), WindowEnd(Position(params), params.loadSize, |ids|);
    NonEmptyWindowDoesNotWrap(position, params.loadSize, |ids|);
    assert SubList(ids, position, toIndex) == Success(ids[position..toIndex]);
    assert Sub32(position, params.loadSize) == position - params.loadSize;
  }

  /**
   * The page keeps exactly the window's stories, in window order: wrapped
   * again they form a subsequence of the per-id results, every id that
   * resolved to a story contributes its story, and nothing else is kept.
   */
  lemma LoadKeepsWindowOrder(fetchItem: ItemFetcher, ids: IdList, params: LoadParams)
    requires 0 <= Position(params) < WindowEnd(Position(params), params.loadSize, |ids|)
    ensures Load(fetchItem, ids, params).Loaded?
    ensures var window := ResolveAll(fetchItem, ids[Position(params)..WindowEnd(Position(params), params.loadSize, |ids|)]);
      var data := Load(fetchItem, ids, params).page.data;
      && IsSubsequence(Lift(data), window)
      && |data| == CountSome(window)
      && (forall i :: 0 <= i < |window| && window[i].Some? ==> window[i].value in data)
  {
    var window := ResolveAll(fetchItem, ids[Position(params)..WindowEnd(Position(params), params.loadSize, |ids|)]);
    LoadWindow(fetchItem, ids, params);
    FilterNotNullIsSubsequence(window);
    FilterNotNullKeepsAll(window);
    forall i | 0 <= i < |window| && window[i].Some?
      ensures window[i].value in FilterNotNull(window)
    {
      FilterNotNullKeepsEach(window, i);
    }
  }

  /** A load with no key is the load at offset 0. */
  lemma MissingKeyIsOffsetZero(fetchItem: ItemFetcher, ids: IdList, loadSize: Int32)
    ensures Load(fetchItem, ids, LoadParams(None, loadSize)) == Load(fetchItem, ids, LoadParams(Some(0), loadSize))
  {
  }

  /** Failing lookups are dropped, not propagated: if every lookup throws, a non-empty window still gives a page, with no data. */
  lemma AllLookupsFailGivesEmptyData(fetchItem: ItemFetcher, ids: IdList, params: LoadParams)
    requires forall id :: fetchItem(id).Failure?
    requires 0 <= Position(params) < WindowEnd(Position(params), params.loadSize, |ids|)
    ensures Load(fetchItem, ids, params).Loaded?
    ensures Load(fetchItem, ids, params).page.data == []
  {
    var position, toIndex := Position(params), WindowEnd(Position(params), params.loadSize, |ids|);
    var slots := ResolveAll(fetchItem, ids[position..toIndex]);
    assert forall i :: 0 <= i < |slots| ==> slots[i].None?;
  }

  /** When every id of the window resolves to a story, nothing is dropped: the data is the window's stories in id order. */
  lemma AllStoriesKeptInOrder(fetchItem: ItemFetcher, ids: IdList, params: LoadParams)
    requires 0 <= Position(params) < WindowEnd(Position(params), params.loadSize, |ids|)
    requires forall i :: Position(params) <= i < WindowEnd(Position(params), params.loadSize, |ids|) ==> Resolve(fetchItem, ids[i]).Some?
    ensures Load(fetchItem, ids, params).Loaded?
    ensures var toIndex := WindowEnd(Position(params), params.loadSize, |ids|);
      Lift(Load(fetchItem, ids, params).page.data) == ResolveAll(fetchItem, ids[Position(params)..toIndex])
  {
    var position, toIndex := Position(params), WindowEnd(Position(params), params.loadSize, |ids|);
    FilterNotNullAllPresent(ResolveAll(fetchItem, ids[position..toIndex]));
  }

  /** Kotlin's `subList` rejects a negative offset, so a load at a negative key is an `Error`, never a page. */
  lemma NegativeKeyFails(fetchItem: ItemFetcher, ids: IdList, key: Int32, loadSize: Int32)
    requires key < 0 < loadSize
    ensures Load(fetchItem, ids, LoadParams(Some(key), loadSize)).Error?
  {
  }

  /**
   * `prevKey` is not clamped: a page that starts strictly between 0 and its own
   * size points back to a negative key, and loading that key fails.
   */
  lemma ShortOffsetPrevKeyFails(fetchItem: ItemFetcher, ids: IdList, key: Int32, loadSize: Int32, prependSize: Int32)
    requires 0 < key < loadSize
    requires key < |ids|
    requires key + loadSize <= INT_MAX
    requires 0 < prependSize
    ensures Load(fetchItem, ids, LoadParams(Some(key), loadSize)).Loaded?
    ensures var prev := Load(fetchItem, ids, LoadParams(Some(key), loadSize)).page.prevKey;
      && prev == Some(key - loadSize)
      && prev.value < 0
      && Load(fetchItem, ids, LoadParams(prev, prependSize)).Error?
  {
    assert WindowEnd(key, loadSize, |ids|) > key;
    LoadWindow(fetchItem, ids, LoadParams(Some(key), loadSize));
    NegativeKeyFails(fetchItem, ids, (key - loadSize) as Int32, prependSize);
  }

  /**
   * Kotlin's Int addition wraps: a window whose end overflows looks empty and
   * gives the terminal empty page even when ids remain after its start.
   */
  lemma OverflowingWindowIsEmpty(fetchItem: ItemFetcher, ids: IdList, params: LoadParams)
    requires 0 <= Position(params)
    requires Position(params) + params.loadSize > INT_MAX
    ensures Load(fetchItem, ids, params) == Loaded(EMPTY_PAGE)
  {
  }

  /**
   * Cursors chain: with a fixed size, the page at a non-final window's
   * `nextKey` points back, through its `prevKey`, to the first page's key.
   */
  lemma NextThenPrevReturns(fetchItem: ItemFetcher, ids: IdList, key: Int32, size: Int32)
    requires 0 <= key
    requires key + size < |ids|
    requires key + 2 * size <= INT_MAX
    requires 0 < size
    ensures var first := Load(fetchItem, ids, LoadParams(Some(key), size));
      && first.Loaded? && first.page.nextKey == Some(key + size)
      && var second := Load(fetchItem, ids, LoadParams(first.page.nextKey, size));
         second.Loaded? && second.page.prevKey == Some(key)
  {
    assert WindowEnd(key, size, |ids|) == key + size;
    LoadWindow(fetchItem, ids, LoadParams(Some(key), size));
    assert WindowEnd(key + size, size, |ids|) > key + size;
    LoadWindow(fetchItem, ids, LoadParams(Some(key + size), size));
  }

  /**
   * Windows tile the list: one load of twice the page size returns the same
   * data, and the same `nextKey`, as the two consecutive page-size loads it
   * covers. (Its `prevKey` differs: it steps back by the larger size.) This
   * holds also when the first page already reaches the end of the list: the
   * second load is then the empty page and both `nextKey`s are null.
   */
  lemma DoubleWindowIsTwoPages(fetchItem: ItemFetcher, ids: IdList, key: Int32, size: Int32)
    requires 0 <= key
    requires key + 2 * size <= INT_MAX
    requires 0 < size
    ensures TwoPagesTile(fetchItem, ids, key, size)
  {
    if key + size < |ids| {
      TilingWithinList(fetchItem, ids, key, size);
    } else {
      TilingPastEnd(fetchItem, ids, key, size);
    }
  }

  /**
   * The three loads succeed, and the double-size one has the two page-size
   * loads' data concatenated and the second one's `nextKey`.
   */
  ghost predicate TwoPagesTile(fetchItem: ItemFetcher, ids: IdList, key: Int32, size: Int32)
    requires 0 <= key && 0 < size && key + 2 * size <= INT_MAX
  {
    var whole := Load(fetchItem, ids, LoadParams(Some(key), (2 * size) as Int32));
    var first := Load(fetchItem, ids, LoadParams(Some(key), size));
    var second := Load(fetchItem, ids, LoadParams(Some(key + size), size));
    && whole.Loaded? && first.Loaded? && second.Loaded?
    && whole.page.data == first.page.data + second.page.data
    && whole.page.nextKey == second.page.nextKey
  }

  /** The tiling when the second page starts inside the list. */
  lemma TilingWithinList(fetchItem: ItemFetcher, ids: IdList, key: Int32, size: Int32)
    requires 0 <= key && 0 < size && key + 2 * size <= INT_MAX
    requires key + size < |ids|
    ensures TwoPagesTile(fetchItem, ids, key, size)
  {
    var mid := key + size;
    var end := Min(key + 2 * size, |ids|);
    assert WindowEnd(key, (2 * size) as Int32, |ids|) == end;
    assert WindowEnd(key, size, |ids|) == mid;
    assert WindowEnd(mid, size, |ids|) == end;
    LoadWindow(fetchItem, ids, LoadParams(Some(key), (2 * size) as Int32));
    LoadWindow(fetchItem, ids, LoadParams(Some(key), size));
    LoadWindow(fetchItem, ids, LoadParams(Some(mid), size));
    ResolveAllSplit(fetchItem, ids, key, mid, end);
    FilterNotNullAppend(ResolveAll(fetchItem, ids[key..mid]), ResolveAll(fetchItem, ids[mid..end]));
  }

  /** The tiling when the first page already reaches the end: the second load is the empty page. */
  lemma TilingPastEnd(fetchItem: ItemFetcher, ids: IdList, key: Int32, size: Int32)
    requires 0 <= key && 0 < size && key + 2 * size <= INT_MAX
    requires |ids| <= key + size
    ensures TwoPagesTile(fetchItem, ids, key, size)
  {
    var mid := key + size;
    assert WindowEnd(key, (2 * size) as Int32, |ids|) == |ids|;
    assert WindowEnd(key, size, |ids|) == |ids|;
    assert WindowEnd(mid, size, |ids|) == |ids|;
    assert Load(fetchItem, ids, LoadParams(Some(mid), size)) == Loaded(EMPTY_PAGE);
    if key < |ids| {
      LoadWindow(fetchItem, ids, LoadParams(Some(key), (2 * size) as Int32));
      LoadWindow(fetchItem, ids, LoadParams(Some(key), size));
    } else {
      assert Load(fetchItem, ids, LoadParams(Some(key), (2 * size) as Int32)) == Loaded(EMPTY_PAGE);
      assert Load(fetchItem, ids, LoadParams(Some(key), size)) == Loaded(EMPTY_PAGE);
    }
  }

  /** Resolving a window is resolving its two halves, one after the other. */
  lemma ResolveAllSplit(fetchItem: ItemFetcher, ids: IdList, lo: nat, mid: nat, hi: nat)
    requires lo <= mid <= hi <= |ids|
    ensures ResolveAll(fetchItem, ids[lo..hi]) == ResolveAll(fetchItem, ids[lo..mid]) + ResolveAll(fetchItem, ids[mid..hi])
  {
    assert ids[lo..hi] == ids[lo..mid] + ids[mid..hi];
  }

  /**
   * Refresh lands back on the anchor's page, provided that page was loaded
   * with the configured page size: for a page loaded at `key`, `getRefreshKey`
   * returns `key` whenever the page has a neighbour, and `null` when that page
   * is the whole list. A first page loaded with a different size does not
   * return to 0 (see `FirstPageRefreshKey`).
   */
  lemma RefreshKeyReturnsToPage(fetchItem: ItemFetcher, ids: IdList, key: Int32, state: PagingState)
    requires 0 <= key < WindowEnd(key, state.pageSize, |ids|)
    requires state.anchorPosition.Some?
    requires state.closestPageToPosition(state.anchorPosition.value)
          == Some(Load(fetchItem, ids, LoadParams(Some(key), state.pageSize)).page)
    ensures GetRefreshKey(state) ==
      if key == 0 && WindowEnd(key, state.pageSize, |ids|) == |ids| then None else Some(key)
  {
    var toIndex := WindowEnd(key, state.pageSize, |ids|);
    LoadWindow(fetchItem, ids, LoadParams(Some(key), state.pageSize));
    var page := Load(fetchItem, ids, LoadParams(Some(key), state.pageSize)).page;
    assert page.prevKey == (if key == 0 then None else Some(key - state.pageSize));
    assert page.nextKey == (if toIndex < |ids| then Some(toIndex) else None);
    if key == 0 && toIndex < |ids| {
      assert toIndex == state.pageSize;
    }
    var closest := state.closestPageToPosition(state.anchorPosition.value);
    assert closest == Some(page);
    if key == 0 && toIndex == |ids| {
      assert GetRefreshKey(state) == None;
    } else if key == 0 {
      assert GetRefreshKey(state) == Some(Sub32(toIndex as Int32, state.pageSize));
    } else {
      assert GetRefreshKey(state) == Some(Add32((key - state.pageSize) as Int32, state.pageSize));
    }
  }

  /**
   * The first page (no key) loaded with `loadSize` has no `prevKey`, so its
   * refresh key is its `nextKey` moved one configured page back:
   * `loadSize - pageSize`. It returns to the page's own offset 0 only when
   * the two sizes agree.
   */
  lemma FirstPageRefreshKey(fetchItem: ItemFetcher, ids: IdList, loadSize: Int32, state: PagingState)
    requires 0 < loadSize < |ids|
    requires state.anchorPosition.Some?
    requires state.closestPageToPosition(state.anchorPosition.value)
          == Some(Load(fetchItem, ids, LoadParams(None, loadSize)).page)
    ensures GetRefreshKey(state) == Some(Sub32(loadSize, state.pageSize))
    ensures GetRefreshKey(state) == Some(0) <==> loadSize == state.pageSize
  {
    assert WindowEnd(0, loadSize, |ids|) == loadSize;
    LoadWindow(fetchItem, ids, LoadParams(None, loadSize));
  }
}
