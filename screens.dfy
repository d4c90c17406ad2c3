/** The logic of `ui/EnvironmentsScreen.kt` and `ui/EnvironmentDetailedScreen.kt`: the
    scroll trigger, which view-model call each gesture makes, the rows a list is composed
    of, the role classification of an environment card and the parameter rows of a room
    card. Layout, colours and the progress fraction are not modelled. */
module Screens {
  import opened Wrappers
  import opened Models
  import opened Paging
  import opened PagedLoading
  import opened Text

  /** The scroll trigger: `totalCount > 0 && firstIndex + 1 >= totalCount - 1`, i.e. the
      first visible row is one of the last two of a non-empty list. */
  function ShouldLoadMore(firstIndex: int, totalCount: int): (r: bool)
    ensures r <==> totalCount > 0 && firstIndex >= totalCount - 2
    ensures totalCount <= 0 ==> !r
  {
    totalCount > 0 && firstIndex + 1 >= totalCount - 1
  }

  /** Once the trigger fires, scrolling further down keeps it firing. */
  lemma TriggerMonotone(i: int, j: int, totalCount: int)
    requires i <= j && ShouldLoadMore(i, totalCount)
    ensures ShouldLoadMore(j, totalCount)
  {
  }

  /** A gesture on a list screen: a new scroll position, or a pull-to-refresh. */
  datatype Gesture = Scrolled(firstIndex: int, totalCount: int) | Pulled

  /** The view-model entry point a gesture reaches. */
  datatype Call = CallLoadMore | CallRefresh

  function CallFor(g: Gesture): (r: Option<Call>)
    ensures g.Pulled? ==> r == Some(CallRefresh)
    ensures g.Scrolled? ==> r != Some(CallRefresh)
    ensures g.Scrolled? ==> (r == Some(CallLoadMore) <==> ShouldLoadMore(g.firstIndex, g.totalCount))
  {
    match g
    case Pulled => Some(CallRefresh)
    case Scrolled(i, n) => if ShouldLoadMore(i, n) then Some(CallLoadMore) else None
  }

  /** A gesture reaching the screen's view model (`loadMoreEnvironments` /
      `refreshEnvironments`, or `loadMoreRooms` / `refreshRooms`). A scroll never starts
      a refresh, and one that does not reach the trigger changes nothing. */
  method OnGesture<T>(vm: Loader<T>, g: Gesture) returns (request: Option<Request>)
    requires vm.Valid()
    modifies vm
    ensures vm.Valid()
    ensures CallFor(g) == None ==> vm.State() == old(vm.State()) && request == None
    ensures CallFor(g) == Some(CallLoadMore) ==>
      vm.State() == BeginLoadMore(old(vm.State())) && request == LoadMoreRequest(old(vm.State()))
    ensures CallFor(g) == Some(CallRefresh) ==>
      vm.State() == BeginRefresh(old(vm.State())) && request == Some(RefreshRequest(old(vm.State())))
    ensures g.Scrolled? ==> vm.isRefreshing == old(vm.isRefreshing)
  {
    var call := CallFor(g);
    match call {
      case None => request := None;
      case Some(CallLoadMore) => request := vm.LoadMore();
      case Some(CallRefresh) =>
        var r := vm.Refresh();
        request := Some(r);
    }
  }

  // ---------------------------------------------------------------------------------
  // List rows

  /** One row of a `LazyColumn`: a card followed, or not, by a spacer; or the loading
      indicator. */
  datatype Row<T> = Card(item: T, spacerAfter: bool) | LoadingRow

  /** The `itemsIndexed` part: each item with a spacer after it unless it is the last. */
  function CardRows<T>(items: seq<T>): seq<Row<T>>
    decreases |items|
  {
    if |items| == 0 then []
    else if |items| == 1 then [Card(items[0], false)]
    else [Card(items[0], true)] + CardRows(items[1..])
  }

  /** One card per item, in order; a spacer follows every card but the last. */
  lemma {:induction false} CardRowsShape<T>(items: seq<T>)
    ensures |CardRows(items)| == |items|
    ensures forall i :: 0 <= i < |items| ==> CardRows(items)[i] == Card(items[i], i < |items| - 1)
    decreases |items|
  {
    if |items| > 1 {
      CardRowsShape(items[1..]);
      forall i | 0 < i < |items|
        ensures CardRows(items)[i] == Card(items[i], i < |items| - 1)
      {
        assert CardRows(items)[i] == CardRows(items[1..])[i - 1];
      }
    }
  }

  /** The rows of a list screen: the cards, then the loading row while `isLoadingMore`. */
  function ListRows<T>(items: seq<T>, isLoadingMore: bool): (r: seq<Row<T>>)
    ensures |r| == |items| + (if isLoadingMore then 1 else 0)
    ensures forall i :: 0 <= i < |items| ==> r[i] == Card(items[i], i < |items| - 1)
    ensures LoadingRow in r <==> isLoadingMore
  {
    CardRowsShape(items);
    CardRows(items) + (if isLoadingMore then [LoadingRow] else [])
  }

  /** The loading row counts toward the trigger's `totalCount`. On a list of one or two
      items at scroll position 0, an empty page shrinks the count by the loading row.
      That new count is a new scroll event, and the trigger fires on it. The loader then
      sends the same request again, so an empty page is polled again and again. */
  lemma ShortListRetriggers<T>(s: LoaderState<T>, page: Option<seq<T>>)
    requires CanLoadMore(s) && 1 <= |s.items| <= 2 && PageItems(page) == []
    ensures var begun := BeginLoadMore(s); var done := EndLoadMore(begun, page);
      done.items == s.items
      && |ListRows(begun.items, begun.isLoadingMore)| == |s.items| + 1
      && |ListRows(done.items, done.isLoadingMore)| == |s.items|
      && ShouldLoadMore(0, |ListRows(done.items, done.isLoadingMore)|)
      && LoadMoreRequest(done) == Some(Request(s.endpoint, s.currentSkip, s.pageSize))
  {
    var begun := BeginLoadMore(s);
    assert begun.isLoadingMore && begun.items == s.items;
  }

  /** The items of the card rows, in order. */
  function CardItems<T>(rows: seq<Row<T>>): seq<T>
    decreases |rows|
  {
    if |rows| == 0 then []
    else if rows[0].Card? then [rows[0].item] + CardItems(rows[1..])
    else CardItems(rows[1..])
  }

  lemma {:induction false} CardItemsOfCardRows<T>(items: seq<T>)
    ensures CardItems(CardRows(items)) == items
    decreases |items|
  {
    if |items| > 1 {
      assert CardRows(items)[1..] == CardRows(items[1..]);
      CardItemsOfCardRows(items[1..]);
    } else if |items| == 1 {
      assert CardRows(items)[1..] == [];
    }
  }

  lemma {:induction false} CardItemsAppend<T>(a: seq<Row<T>>, b: seq<Row<T>>)
    ensures CardItems(a + b) == CardItems(a) + CardItems(b)
    decreases |a|
  {
    if |a| > 0 {
      assert (a + b)[1..] == a[1..] + b;
      CardItemsAppend(a[1..], b);
    } else {
      assert a + b == b;
    }
  }

  /** Reading the cards back off a list screen gives exactly the view model's items, in
      order: no item is dropped, repeated or reordered, with or without the loading row. */
  lemma ListShowsEveryItem<T>(items: seq<T>, isLoadingMore: bool)
    ensures CardItems(ListRows(items, isLoadingMore)) == items
  {
    CardItemsOfCardRows(items);
    CardItemsAppend(CardRows(items), if isLoadingMore then [LoadingRow] else []);
    var loading: seq<Row<T>> := [LoadingRow];
    assert CardItems(loading) == [] by {
      assert loading[1..] == [];
    }
  }

  // ---------------------------------------------------------------------------------
  // Environment cards

  /** The four branches of the role `when`s (background and text colour). */
  datatype RoleKind = Owner | User | Admin | Other

  function RoleKindOf(role: string): (r: RoleKind)
    ensures r == Owner <==> Lowercase(role) == "owner"
    ensures r == User <==> Lowercase(role) == "user"
    ensures r == Admin <==> Lowercase(role) == "admin"
  {
    var l := Lowercase(role);
    if l == "owner" then Owner else if l == "user" then User else if l == "admin" then Admin else Other
  }

  /** The classification ignores case: two roles that lower-case alike are classified
      alike, and a role is classified as its own lower-cased form. */
  lemma RoleCaseInsensitive(a: string, b: string)
    requires Lowercase(a) == Lowercase(b)
    ensures RoleKindOf(a) == RoleKindOf(b)
  {
  }

  lemma RoleOfLowercase(role: string)
    ensures RoleKindOf(Lowercase(role)) == RoleKindOf(role)
  {
    LowercaseIdempotent(role);
  }

  /** The text of the role badge. */
  function RoleLabel(env: Environment): (r: string)
    ensures |r| == |env.role|
    ensures |r| > 0 ==> r[0] == UpperChar(env.role[0]) && r[1..] == env.role[1..]
  {
    Capitalize(env.role)
  }

  // ---------------------------------------------------------------------------------
  // Room cards

  /** A `ParameterRow`: the parameter and its capitalised name as caption. */
  datatype ParameterRow = ParameterRow(parameter: Parameter, caption: string)

  function RowsOf(ps: seq<Parameter>): (r: seq<ParameterRow>)
    ensures |r| == |ps|
    ensures forall i :: 0 <= i < |ps| ==> r[i].parameter == ps[i] && r[i].caption == Capitalize(ps[i].name)
    decreases |ps|
  {
    if |ps| == 0 then []
    else [ParameterRow(ps[0], Capitalize(ps[0].name))] + RowsOf(ps[1..])
  }

  /** `room.parameters?.forEach`: no rows for null parameters, otherwise one row per
      parameter, in order. */
  function ParameterRows(room: Room): (r: seq<ParameterRow>)
    ensures room.parameters.None? ==> r == []
    ensures room.parameters.Some? ==>
      |r| == |room.parameters.value|
      && forall i :: 0 <= i < |r| ==> r[i].parameter == room.parameters.value[i]
    ensures forall i :: 0 <= i < |r| ==> r[i].caption == Capitalize(r[i].parameter.name)
  {
    match room.parameters
    case None => []
    case Some(ps) => RowsOf(ps)
  }
}
