/** The two pagination view models (env/EnvironmentViewModel.kt and
    env/EnvironmentDetailViewModel.kt) as one generic class over the element type. The
    environment list is a `Loader<Environment>` on endpoint `Environments`; the room list
    of one environment is a `Loader<Room>` on `Rooms(environmentId)`. The response of a
    request is a parameter: `Some(page)` when the body arrived, `None` when the call threw
    or the body was null (the `!!` throws into the same `catch`). */
module PagedLoading {
  import opened Wrappers
  import opened Models
  import opened Paging

  class Loader<T> {
    const endpoint: Endpoint
    const pageSize: int
    var items: seq<T>
    var currentSkip: int
    var isRefreshing: bool
    var isLoadingMore: bool
    /** The total length of the pages loadMore has appended so far. */
    ghost var appended: nat

    /** The fields as one value, the state the functions of `Paging` describe. */
    function State(): LoaderState<T>
      reads this
    {
      LoaderState(endpoint, pageSize, items, currentSkip, isRefreshing, isLoadingMore)
    }

    /** The offset is its starting value plus everything loadMore appended, so it never
        falls below `pageSize` (the accounting `Paging.SkipFromConstruction` proves over
        traces). */
    ghost predicate Valid()
      reads this
    {
      currentSkip == pageSize + appended
    }

    /** The fields start empty and idle with the offset at `pageSize`; `init` then calls
        refresh, which sets `isRefreshing` and sends `RefreshRequest(State())`. */
    constructor (endpoint: Endpoint, pageSize: int)
      ensures Valid()
      ensures State() == BeginRefresh(Initial(endpoint, pageSize))
      ensures items == [] && currentSkip == pageSize && isRefreshing && !isLoadingMore
      ensures appended == 0
    {
      this.endpoint := endpoint;
      this.pageSize := pageSize;
      items := [];
      currentSkip := pageSize;
      appended := 0;
      isLoadingMore := false;
      isRefreshing := true;
    }

    /** `refreshEnvironments` / `refreshRooms` when called: no guard. */
    method Refresh() returns (request: Request)
      requires Valid()
      modifies this
      ensures Valid()
      ensures State() == BeginRefresh(old(State()))
      ensures request == RefreshRequest(old(State()))
      ensures appended == old(appended)
    {
      isRefreshing := true;
      request := Request(endpoint, 0, pageSize);
    }

    /** The response of a refresh: `data` replaces the list, then `finally` clears the flag. */
    method RefreshResponse(page: Option<seq<T>>)
      requires Valid()
      modifies this
      ensures Valid()
      ensures State() == EndRefresh(old(State()), page)
      ensures appended == old(appended)
    {
      if page.Some? {
        items := page.value;
      }
      isRefreshing := false;
    }

    /** `loadMoreEnvironments` / `loadMoreRooms` when called: returns at once, sending
        nothing, while either flag is set. */
    method LoadMore() returns (request: Option<Request>)
      requires Valid()
      modifies this
      ensures Valid()
      ensures State() == BeginLoadMore(old(State()))
      ensures request == LoadMoreRequest(old(State()))
      ensures appended == old(appended)
    {
      if isLoadingMore || isRefreshing {
        return None;
      }
      isLoadingMore := true;
      request := Some(Request(endpoint, currentSkip, pageSize));
    }

    /** The response of a loadMore: a non-empty page is appended and the offset advanced,
        then `finally` clears the flag. */
    method LoadMoreResponse(page: Option<seq<T>>)
      requires Valid()
      modifies this
      ensures Valid()
      ensures State() == EndLoadMore(old(State()), page)
      ensures appended == old(appended) + |PageItems(page)|
    {
      if page.Some? {
        var nextList := page.value;
        if |nextList| > 0 {
          items := items + nextList;
          currentSkip := currentSkip + |nextList|;
          appended := appended + |nextList|;
        }
      }
      isLoadingMore := false;
    }
  }

  /** `EnvironmentViewModel(pageSize)`: the loader of `GET /env`; the source's default
      page size is 20. */
  method NewEnvironmentViewModel(pageSize: int) returns (vm: Loader<Environment>)
    ensures fresh(vm) && vm.Valid()
    ensures vm.State() == BeginRefresh(Initial(Environments, pageSize))
  {
    vm := new Loader(Environments, pageSize);
  }

  /** `EnvironmentDetailViewModel(environmentId, pageSize)`: the loader of the rooms of one
      environment, fixed for the loader's whole life. */
  method NewEnvironmentDetailViewModel(environmentId: int, pageSize: int) returns (vm: Loader<Room>)
    ensures fresh(vm) && vm.Valid()
    ensures vm.State() == BeginRefresh(Initial(Rooms(environmentId), pageSize))
  {
    vm := new Loader(Rooms(environmentId), pageSize);
  }

  /** The default page size of both view models. */
  const DefaultPageSize := 20

  /** A client of the class: with the default page size the first loadMore after the
      construction refresh asks for offset 20 whatever the first page held, a second call
      while it is in flight sends nothing, and once its page arrives the next loadMore
      asks for the offset advanced by that page's length. */
  method ScrollTwice(first: seq<Environment>, second: seq<Environment>)
    returns (initial: Option<Request>, blocked: Option<Request>, next: Option<Request>)
    ensures initial == Some(Request(Environments, 20, 20))
    ensures blocked == None
    ensures next == Some(Request(Environments, 20 + |second|, 20))
  {
    var vm := NewEnvironmentViewModel(DefaultPageSize);
    vm.RefreshResponse(Some(first));
    initial := vm.LoadMore();
    blocked := vm.LoadMore();
    vm.LoadMoreResponse(Some(second));
    next := vm.LoadMore();
  }
}
