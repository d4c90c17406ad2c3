/** The pagination engine shared by EnvironmentViewModel and EnvironmentDetailViewModel,
    as values. Every call of `refresh…` or `loadMore…` is split into the step that runs
    when it is called (guard, set the flag, send the request) and the step that runs when
    the response arrives (apply the page, clear the flag), so that any interleaving of
    calls and responses is a plain sequence of events. */
module Paging {
  import opened Wrappers

  /** The two paged endpoints: `GET /env` and `GET /env/{id}/room`. */
  datatype Endpoint = Environments | Rooms(environmentId: int)

  /** One page request: the endpoint with its `skip` and `count` query parameters. */
  datatype Request = Request(endpoint: Endpoint, skip: int, count: int)

  /** The whole state of one loader: its fixed configuration, the list it shows, the
      offset of the next `loadMore` and the two progress flags. */
  datatype LoaderState<T> = LoaderState(
    endpoint: Endpoint,
    pageSize: int,
    items: seq<T>,
    currentSkip: int,
    isRefreshing: bool,
    isLoadingMore: bool)

  /** The fields as the constructor initialises them, before `init` runs. Note that the
      offset starts at `pageSize`, not at 0. */
  function Initial<T>(endpoint: Endpoint, pageSize: int): LoaderState<T> {
    LoaderState(endpoint, pageSize, [], pageSize, false, false)
  }

  /** The items of a response: the page on success, nothing when the call threw or the
      body was null (both end in the `catch`). */
  function PageItems<T>(page: Option<seq<T>>): seq<T> {
    if page.Some? then page.value else []
  }

  /** Calling refresh: there is no guard; the flag is set and the first page requested. */
  function BeginRefresh<T>(s: LoaderState<T>): (r: LoaderState<T>)
    ensures r.isRefreshing
    ensures r.(isRefreshing := s.isRefreshing) == s
  {
    s.(isRefreshing := true)
  }

  /** The request a refresh sends: always offset 0, one page. */
  function RefreshRequest<T>(s: LoaderState<T>): (q: Request)
    ensures q.endpoint == s.endpoint && q.skip == 0 && q.count == s.pageSize
  {
    Request(s.endpoint, 0, s.pageSize)
  }

  /** The response of a refresh arrives: a page replaces the list wholesale, a failure
      leaves it alone, the offset is never touched and the flag always ends false. */
  function EndRefresh<T>(s: LoaderState<T>, page: Option<seq<T>>): (r: LoaderState<T>)
    ensures !r.isRefreshing
    ensures r.items == (if page.Some? then page.value else s.items)
    ensures r.currentSkip == s.currentSkip && r.isLoadingMore == s.isLoadingMore
    ensures r.endpoint == s.endpoint && r.pageSize == s.pageSize
  {
    s.(items := if page.Some? then page.value else s.items, isRefreshing := false)
  }

  /** The guard of loadMore: neither a loadMore nor a refresh is shown as running. */
  predicate CanLoadMore<T>(s: LoaderState<T>) {
    !s.isLoadingMore && !s.isRefreshing
  }

  /** Calling loadMore: a no-op when the guard fails, otherwise the flag is set. */
  function BeginLoadMore<T>(s: LoaderState<T>): (r: LoaderState<T>)
    ensures r.isLoadingMore <==> s.isLoadingMore || !s.isRefreshing
    ensures r.(isLoadingMore := s.isLoadingMore) == s
  {
    if CanLoadMore(s) then s.(isLoadingMore := true) else s
  }

  /** The request a loadMore sends, if the guard lets it through: one page at the
      current offset. */
  function LoadMoreRequest<T>(s: LoaderState<T>): (q: Option<Request>)
    ensures q.Some? <==> !s.isLoadingMore && !s.isRefreshing
    ensures q.Some? ==> q.value == Request(s.endpoint, s.currentSkip, s.pageSize)
  {
    if CanLoadMore(s) then Some(Request(s.endpoint, s.currentSkip, s.pageSize)) else None
  }

  /** The response of a loadMore arrives: a non-empty page is appended and the offset
      advances by its length; an empty page or a failure changes nothing; the flag
      always ends false. */
  function EndLoadMore<T>(s: LoaderState<T>, page: Option<seq<T>>): (r: LoaderState<T>)
    ensures !r.isLoadingMore && r.isRefreshing == s.isRefreshing
    ensures s.items <= r.items
    ensures r.items[|s.items|..] == PageItems(page)
    ensures r.currentSkip - s.currentSkip == |r.items| - |s.items|
    ensures r.endpoint == s.endpoint && r.pageSize == s.pageSize
  {
    var next := PageItems(page);
    if |next| > 0 then
      s.(items := s.items + next, currentSkip := s.currentSkip + |next|, isLoadingMore := false)
    else
      s.(isLoadingMore := false)
  }

  /** Nothing records that the last page was short: after any loadMore response the
      next loadMore sends a request again, at the offset advanced by that page. */
  lemma ShortPageKeepsLoading<T>(s: LoaderState<T>, page: Option<seq<T>>)
    requires CanLoadMore(s)
    ensures LoadMoreRequest(EndLoadMore(BeginLoadMore(s), page))
      == Some(Request(s.endpoint, s.currentSkip + |PageItems(page)|, s.pageSize))
  {
  }

  // ---------------------------------------------------------------------------------
  // Traces of calls and responses

  /** What can happen to a loader: a call of refresh or loadMore, or the response to one. */
  datatype Event<T> =
    | RefreshCall
    | RefreshReply(page: Option<seq<T>>)
    | LoadMoreCall
    | LoadMoreReply(page: Option<seq<T>>)

  function Step<T>(s: LoaderState<T>, e: Event<T>): LoaderState<T> {
    match e
    case RefreshCall => BeginRefresh(s)
    case RefreshReply(p) => EndRefresh(s, p)
    case LoadMoreCall => BeginLoadMore(s)
    case LoadMoreReply(p) => EndLoadMore(s, p)
  }

  /** The request an event sends to the backend, if any. */
  function Sent<T>(s: LoaderState<T>, e: Event<T>): Option<Request> {
    match e
    case RefreshCall => Some(RefreshRequest(s))
    case LoadMoreCall => LoadMoreRequest(s)
    case _ => None
  }

  function Run<T>(s: LoaderState<T>, es: seq<Event<T>>): LoaderState<T>
    decreases |es|
  {
    if es == [] then s else Run(Step(s, es[0]), es[1..])
  }

  /** Every request sent along a trace, in order. */
  function Requests<T>(s: LoaderState<T>, es: seq<Event<T>>): seq<Request>
    decreases |es|
  {
    if es == [] then []
    else
      var q := Sent(s, es[0]);
      (if q.Some? then [q.value] else []) + Requests(Step(s, es[0]), es[1..])
  }

  /** The total length of the pages delivered to loadMore along a trace. */
  function Appended<T>(es: seq<Event<T>>): nat
    decreases |es|
  {
    if es == [] then 0
    else (if es[0].LoadMoreReply? then |PageItems(es[0].page)| else 0) + Appended(es[1..])
  }

  /** The offset after any trace is the offset before it plus everything loadMore
      appended; refreshes never move it. */
  lemma {:induction false} SkipAccounting<T>(s: LoaderState<T>, es: seq<Event<T>>)
    ensures Run(s, es).currentSkip == s.currentSkip + Appended(es)
    ensures Run(s, es).endpoint == s.endpoint && Run(s, es).pageSize == s.pageSize
    decreases |es|
  {
    if es != [] {
      SkipAccounting(Step(s, es[0]), es[1..]);
    }
  }

  /** From construction on, the offset is `pageSize` plus the length of every page that
      loadMore appended, so it never decreases. */
  lemma SkipFromConstruction<T>(endpoint: Endpoint, pageSize: int, es: seq<Event<T>>)
    ensures Run(BeginRefresh(Initial<T>(endpoint, pageSize)), es).currentSkip == pageSize + Appended(es)
    ensures Run(BeginRefresh(Initial<T>(endpoint, pageSize)), es).currentSkip >= pageSize
  {
    SkipAccounting(BeginRefresh(Initial<T>(endpoint, pageSize)), es);
  }

  /** The offset never decreases from one point of a trace to a later one. */
  lemma {:induction false} SkipMonotone<T>(s: LoaderState<T>, es: seq<Event<T>>, k: nat)
    requires k <= |es|
    ensures Run(s, es[..k]).currentSkip <= Run(s, es).currentSkip
    decreases |es|
  {
    if k > 0 {
      assert es[..k][0] == es[0] && es[..k][1..] == es[1..][..k - 1];
      SkipMonotone(Step(s, es[0]), es[1..], k - 1);
    } else {
      SkipAccounting(s, es);
    }
  }

  /** Every request a loader ever sends uses the endpoint (and so the environment id)
      and the page size it was built with. */
  lemma {:induction false} RequestsKeepEndpoint<T>(s: LoaderState<T>, es: seq<Event<T>>)
    ensures forall i :: 0 <= i < |Requests(s, es)| ==>
      Requests(s, es)[i].endpoint == s.endpoint && Requests(s, es)[i].count == s.pageSize
    decreases |es|
  {
    if es != [] {
      RequestsKeepEndpoint(Step(s, es[0]), es[1..]);
    }
  }

  // ---------------------------------------------------------------------------------
  // Requests in flight

  /** A loader together with the number of its requests still awaiting a response. */
  datatype World<T> = World(loader: LoaderState<T>, refreshes: nat, loads: nat)

  /** After the constructor ran: the `init` refresh is in flight. */
  function Constructed<T>(endpoint: Endpoint, pageSize: int): World<T> {
    World(BeginRefresh(Initial(endpoint, pageSize)), 1, 0)
  }

  /** A response can only arrive for a request that is in flight. */
  predicate Possible<T>(w: World<T>, e: Event<T>) {
    match e
    case RefreshReply(_) => w.refreshes > 0
    case LoadMoreReply(_) => w.loads > 0
    case _ => true
  }

  function Advance<T>(w: World<T>, e: Event<T>): World<T>
    requires Possible(w, e)
  {
    var s := w.loader;
    match e
    case RefreshCall => World(Step(s, e), w.refreshes + 1, w.loads)
    case RefreshReply(_) => World(Step(s, e), w.refreshes - 1, w.loads)
    case LoadMoreCall => World(Step(s, e), w.refreshes, w.loads + (if CanLoadMore(s) then 1 else 0))
    case LoadMoreReply(_) => World(Step(s, e), w.refreshes, w.loads - 1)
  }

  predicate Feasible<T>(w: World<T>, es: seq<Event<T>>)
    decreases |es|
  {
    es == [] || (Possible(w, es[0]) && Feasible(Advance(w, es[0]), es[1..]))
  }

  function AdvanceAll<T>(w: World<T>, es: seq<Event<T>>): World<T>
    requires Feasible(w, es)
    decreases |es|
  {
    if es == [] then w else AdvanceAll(Advance(w, es[0]), es[1..])
  }

  /** What the flags guarantee: at most one loadMore is ever in flight, `isLoadingMore`
      says exactly whether it is, and `isRefreshing` is only set while some refresh is
      in flight. */
  predicate Coherent<T>(w: World<T>) {
    && w.loads <= 1
    && (w.loader.isLoadingMore <==> w.loads == 1)
    && (w.loader.isRefreshing ==> w.refreshes > 0)
  }

  /** Coherence holds after construction and along every feasible trace. */
  lemma {:induction false} CoherentAlways<T>(w: World<T>, es: seq<Event<T>>)
    requires Coherent(w) && Feasible(w, es)
    ensures Coherent(AdvanceAll(w, es))
    decreases |es|
  {
    if es != [] {
      assert Coherent(Advance(w, es[0]));
      CoherentAlways(Advance(w, es[0]), es[1..]);
    }
  }

  lemma ReachableCoherent<T>(endpoint: Endpoint, pageSize: int, es: seq<Event<T>>)
    requires Feasible(Constructed<T>(endpoint, pageSize), es)
    ensures AdvanceAll(Constructed<T>(endpoint, pageSize), es).loads <= 1
    ensures Coherent(AdvanceAll(Constructed<T>(endpoint, pageSize), es))
  {
    CoherentAlways(Constructed<T>(endpoint, pageSize), es);
  }

  /** Refresh has no re-entrancy guard: after two refresh calls and one response, one
      refresh is still in flight though `isRefreshing` is already false. */
  lemma RefreshFlagClearedEarly<T>(endpoint: Endpoint, pageSize: int, page: Option<seq<T>>)
    ensures var w := AdvanceAll(Constructed<T>(endpoint, pageSize), [RefreshCall, RefreshReply(page)]);
      w.refreshes == 1 && !w.loader.isRefreshing
  {
    var w0 := Constructed<T>(endpoint, pageSize);
    var w1 := Advance(w0, RefreshCall);
    assert AdvanceAll(w0, [RefreshCall, RefreshReply(page)]) == AdvanceAll(w1, [RefreshReply(page)]);
  }

  /** A refresh may start while a loadMore is in flight, so both flags can be true. */
  lemma BothFlagsAtOnce<T>(endpoint: Endpoint, pageSize: int, page: Option<seq<T>>)
    ensures var s := Run(BeginRefresh(Initial<T>(endpoint, pageSize)), [RefreshReply(page), LoadMoreCall, RefreshCall]);
      s.isRefreshing && s.isLoadingMore
  {
    var s0 := BeginRefresh(Initial<T>(endpoint, pageSize));
    var s1 := Step(s0, RefreshReply(page));
    var s2 := Step(s1, LoadMoreCall);
    assert Run(s0, [RefreshReply(page), LoadMoreCall, RefreshCall]) == Run(s1, [LoadMoreCall, RefreshCall]);
    assert Run(s1, [LoadMoreCall, RefreshCall]) == Run(s2, [RefreshCall]);
  }

  // ---------------------------------------------------------------------------------
  // The list against a backend whose data does not change

  function Clamp(x: int, lo: int, hi: int): int
    requires lo <= hi
  {
    if x < lo then lo else if x > hi then hi else x
  }

  /** What a backend holding the list `all` returns for `skip` and `count`. */
  function Slice<T>(all: seq<T>, skip: int, count: int): seq<T> {
    var lo := Clamp(skip, 0, |all|);
    all[lo..Clamp(skip + count, lo, |all|)]
  }

  /** The loader shows exactly the first `currentSkip` elements of `all`, so the next
      loadMore continues where the list ends. */
  ghost predicate Aligned<T>(s: LoaderState<T>, all: seq<T>) {
    0 <= s.currentSkip <= |all| && s.items == all[..s.currentSkip]
  }

  /** Against an unchanging backend a completed loadMore keeps the list aligned, whether
      its page arrives or the call fails. */
  lemma LoadMoreKeepsAligned<T>(s: LoaderState<T>, all: seq<T>, ok: bool)
    requires Aligned(s, all) && CanLoadMore(s) && s.pageSize >= 0
    ensures var q := LoadMoreRequest(s).value;
      Aligned(EndLoadMore(BeginLoadMore(s), if ok then Some(Slice(all, q.skip, q.count)) else None), all)
  {
    var page := Slice(all, s.currentSkip, s.pageSize);
    var hi := Clamp(s.currentSkip + s.pageSize, s.currentSkip, |all|);
    assert page == all[s.currentSkip..hi];
    assert all[..s.currentSkip] + all[s.currentSkip..hi] == all[..hi];
  }

  /** A successful refresh against an unchanging backend leaves the list aligned if and
      only if the offset equals the length of the first page. Since refresh never resets
      the offset, a refresh after a successful loadMore leaves a gap: the next loadMore
      skips the elements between the first page and the old offset. */
  lemma RefreshAlignedIff<T>(s: LoaderState<T>, all: seq<T>)
    requires s.pageSize >= 0 && s.currentSkip >= 0
    ensures var first := Slice(all, 0, s.pageSize);
      Aligned(EndRefresh(s, Some(first)), all) <==> s.currentSkip == |first|
  {
    var first := Slice(all, 0, s.pageSize);
    assert first == all[..|first|];
    if Aligned(EndRefresh(s, Some(first)), all) {
      assert |all[..s.currentSkip]| == s.currentSkip;
    }
  }

  /** The construction refresh aligns the list exactly when the backend has at least a
      full first page; a shorter first page leaves the offset past the end. */
  lemma FirstRefreshAlignedIff<T>(endpoint: Endpoint, pageSize: int, all: seq<T>)
    requires pageSize >= 0
    ensures Aligned(EndRefresh(BeginRefresh(Initial<T>(endpoint, pageSize)), Some(Slice(all, 0, pageSize))), all)
      <==> |all| >= pageSize
  {
    RefreshAlignedIff(BeginRefresh(Initial<T>(endpoint, pageSize)), all);
  }
}
