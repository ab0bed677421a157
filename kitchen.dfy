/** The kitchen screen: the orders the kitchen works through, the status,
    table and search filters over them, the list of tables to filter by,
    the local effect of completing or deleting an order, order totals and
    the "time ago" label shown on each order card. */
module Kitchen {
  import opened Wrappers
  import opened Seqs
  import opened Text

  /** A cart line as the order service returns it; its `name` may be missing. */
  datatype KitchenItem = KitchenItem(name: Option<string>, price: int, quantity: int)

  /** An order as the kitchen holds it. `customer`, `cart` and `status` may be
      missing; `orderTime` is the instant its date string denotes in
      milliseconds, or None when that string is not a date. */
  datatype KitchenOrder = KitchenOrder(
    id: int,
    customer: Option<string>,
    table: string,
    cart: Option<seq<KitchenItem>>,
    status: Option<string>,
    orderTime: Option<int>)

  /** A missing value or the empty string: what `!x` and `x || d` treat as absent. */
  predicate Falsy(s: Option<string>) {
    s.None? || s.value == []
  }

  // ------------------------------------------------------------ loading

  /** The transform applied to each order the service returns:
      `status: order.status || 'pending'`, `cart: order.cart || []`. */
  function Loaded(o: KitchenOrder): (r: KitchenOrder)
    ensures r.id == o.id && r.customer == o.customer && r.table == o.table && r.orderTime == o.orderTime
    ensures !Falsy(o.status) ==> r.status == o.status
    ensures Falsy(o.status) ==> r.status == Some("pending")
    ensures r.cart == Some(if o.cart.Some? then o.cart.value else [])
    ensures !Falsy(r.status)
  {
    o.(status := Some(OrElse(o.status.GetOr([]), "pending")), cart := Some(o.cart.GetOr([])))
  }

  /** `data.map(order => ({...order, status: …, cart: …}))` */
  function LoadOrders(data: seq<KitchenOrder>): (r: seq<KitchenOrder>)
    ensures |r| == |data|
    ensures forall i :: 0 <= i < |data| ==> r[i] == Loaded(data[i])
  {
    seq(|data|, i requires 0 <= i < |data| => Loaded(data[i]))
  }

  /** `loadOrders()`: the transformed orders when the service answers (Some),
      otherwise the orders kept in local storage exactly as stored. Only the
      service's orders are sure to carry a status and a cart. */
  function FetchOrders(response: Option<seq<KitchenOrder>>, local: seq<KitchenOrder>): (r: seq<KitchenOrder>)
    ensures response.None? ==> r == local
    ensures response.Some? ==> r == LoadOrders(response.value) && |r| == |response.value|
    ensures response.Some? ==> forall i :: 0 <= i < |r| ==> r[i].id == response.value[i].id && !Falsy(r[i].status) && r[i].cart.Some?
  {
    match response
    case None => local
    case Some(data) => LoadOrders(data)
  }

  // ------------------------------------------------------------ filters

  /** The status filter: 'pending' keeps a missing or "pending" status,
      'completed' keeps exactly "completed", any other selection keeps all. */
  predicate StatusKeeps(filter: string, o: KitchenOrder) {
    if filter == "pending" then Falsy(o.status) || o.status == Some("pending")
    else if filter == "completed" then o.status == Some("completed")
    else true
  }

  /** The table filter: 'all' keeps all, any other value keeps equal tables. */
  predicate TableKeeps(tableFilter: string, o: KitchenOrder) {
    tableFilter == "all" || o.table == tableFilter
  }

  /** A cart line whose lower-cased name contains `q`. */
  predicate ItemNamed(item: KitchenItem, q: string) {
    item.name.Some? && Contains(Lower(item.name.value), q)
  }

  /** The customer, the table or some item name contains the term, ignoring case. */
  predicate SearchMatches(term: string, o: KitchenOrder) {
    var q := Lower(term);
    (o.customer.Some? && Contains(Lower(o.customer.value), q))
    || Contains(Lower(o.table), q)
    || (o.cart.Some? && exists i :: 0 <= i < |o.cart.value| && ItemNamed(o.cart.value[i], q))
  }

  /** The search filter: a term that trims to nothing keeps all. */
  predicate SearchKeeps(term: string, o: KitchenOrder) {
    Trim(term) == [] || SearchMatches(term, o)
  }

  /** An order passes all three filters. */
  predicate Shown(filter: string, tableFilter: string, term: string, o: KitchenOrder) {
    StatusKeeps(filter, o) && TableKeeps(tableFilter, o) && SearchKeeps(term, o)
  }

  function IsPendingOrder(): KitchenOrder -> bool {
    (o: KitchenOrder) => StatusKeeps("pending", o)
  }

  function IsCompletedOrder(): KitchenOrder -> bool {
    (o: KitchenOrder) => StatusKeeps("completed", o)
  }

  function StatusPass(filter: string): KitchenOrder -> bool {
    (o: KitchenOrder) => StatusKeeps(filter, o)
  }

  function AtTable(tableFilter: string): KitchenOrder -> bool {
    (o: KitchenOrder) => o.table == tableFilter
  }

  function TablePass(tableFilter: string): KitchenOrder -> bool {
    (o: KitchenOrder) => TableKeeps(tableFilter, o)
  }

  function MatchesTerm(term: string): KitchenOrder -> bool {
    (o: KitchenOrder) => SearchMatches(term, o)
  }

  function SearchPass(term: string): KitchenOrder -> bool {
    (o: KitchenOrder) => SearchKeeps(term, o)
  }

  function ShownBy(filter: string, tableFilter: string, term: string): KitchenOrder -> bool {
    (o: KitchenOrder) => Shown(filter, tableFilter, term, o)
  }

  /** The memoised `filteredOrders`: the status switch, then the table filter
      unless it is 'all', then the search filter unless the term trims to nothing. */
  function FilteredOrders(orders: seq<KitchenOrder>, filter: string, tableFilter: string, term: string): seq<KitchenOrder> {
    var byStatus :=
      if filter == "pending" then Filter(orders, IsPendingOrder())
      else if filter == "completed" then Filter(orders, IsCompletedOrder())
      else orders;
    var byTable := if tableFilter != "all" then Filter(byStatus, AtTable(tableFilter)) else byStatus;
    if Trim(term) != [] then Filter(byTable, MatchesTerm(term)) else byTable
  }

  lemma StatusStage(orders: seq<KitchenOrder>, filter: string)
    ensures Filter(orders, StatusPass(filter)) ==
      (if filter == "pending" then Filter(orders, IsPendingOrder())
       else if filter == "completed" then Filter(orders, IsCompletedOrder())
       else orders)
  {
    if filter == "pending" {
      FilterExt(orders, StatusPass(filter), IsPendingOrder());
    } else if filter == "completed" {
      FilterExt(orders, StatusPass(filter), IsCompletedOrder());
    } else {
      FilterKeepsAll(orders, StatusPass(filter));
    }
  }

  lemma TableStage(s: seq<KitchenOrder>, tableFilter: string)
    ensures Filter(s, TablePass(tableFilter)) ==
      (if tableFilter != "all" then Filter(s, AtTable(tableFilter)) else s)
  {
    if tableFilter != "all" {
      FilterExt(s, TablePass(tableFilter), AtTable(tableFilter));
    } else {
      FilterKeepsAll(s, TablePass(tableFilter));
    }
  }

  lemma SearchStage(s: seq<KitchenOrder>, term: string)
    ensures Filter(s, SearchPass(term)) ==
      (if Trim(term) != [] then Filter(s, MatchesTerm(term)) else s)
  {
    if Trim(term) != [] {
      FilterExt(s, SearchPass(term), MatchesTerm(term));
    } else {
      FilterKeepsAll(s, SearchPass(term));
    }
  }

  /** The three chained filters are one filter by their conjunction, so the
      result is the subsequence of `orders` that passes all three, in order. */
  lemma {:induction false} FilteredOrdersIsFilter(orders: seq<KitchenOrder>, filter: string, tableFilter: string, term: string)
    ensures FilteredOrders(orders, filter, tableFilter, term) == Filter(orders, ShownBy(filter, tableFilter, term))
    ensures Subsequence(FilteredOrders(orders, filter, tableFilter, term), orders)
  {
    var s1 := Filter(orders, StatusPass(filter));
    var s2 := Filter(s1, TablePass(tableFilter));
    StatusStage(orders, filter);
    TableStage(s1, tableFilter);
    SearchStage(s2, term);
    var st: KitchenOrder -> bool := (o: KitchenOrder) => StatusKeeps(filter, o) && TableKeeps(tableFilter, o);
    FilterFilter(orders, StatusPass(filter), TablePass(tableFilter), st);
    FilterFilter(orders, st, SearchPass(term), ShownBy(filter, tableFilter, term));
    FilterSubsequence(orders, ShownBy(filter, tableFilter, term));
  }

  /** Which orders the kitchen sees, in the terms the screen promises. */
  lemma FilteredOrdersMembers(orders: seq<KitchenOrder>, filter: string, tableFilter: string, term: string, o: KitchenOrder)
    ensures o in FilteredOrders(orders, filter, tableFilter, term) <==>
      o in orders
      && (filter == "pending" ==> o.status.None? || o.status == Some("") || o.status == Some("pending"))
      && (filter == "completed" ==> o.status == Some("completed"))
      && (tableFilter != "all" ==> o.table == tableFilter)
      && (!IsBlank(term) ==> SearchMatches(term, o))
  {
    FilteredOrdersIsFilter(orders, filter, tableFilter, term);
    TrimEmptyIffBlank(term);
  }

  /** `clearFilters` (all statuses, all tables, empty search) shows every order. */
  lemma ClearedFiltersShowAll(orders: seq<KitchenOrder>)
    ensures FilteredOrders(orders, "all", "all", "") == orders
  {
  }

  /** After loading, every order has a status, so the 'pending' selection keeps exactly the "pending" ones. */
  lemma LoadedPendingIsPending(data: seq<KitchenOrder>, o: KitchenOrder)
    ensures o in FilteredOrders(LoadOrders(data), "pending", "all", "") <==>
      o in LoadOrders(data) && o.status == Some("pending")
  {
    FilteredOrdersMembers(LoadOrders(data), "pending", "all", "", o);
    if o in LoadOrders(data) {
      var i :| 0 <= i < |LoadOrders(data)| && LoadOrders(data)[i] == o;
      assert !Falsy(Loaded(data[i]).status);
    }
  }

  // ------------------------------------------------------------ tables

  /** `orders.map(order => order.table)` */
  function TablesOf(orders: seq<KitchenOrder>): (r: seq<string>)
    ensures |r| == |orders|
    ensures forall i :: 0 <= i < |orders| ==> r[i] == orders[i].table
  {
    seq(|orders|, i requires 0 <= i < |orders| => orders[i].table)
  }

  /** Strictly ascending in the default `sort` order. */
  predicate Increasing(s: seq<string>) {
    forall i, j :: 0 <= i < j < |s| ==> LexLess(s[i], s[j])
  }

  /** One step of an insertion sort in the default order. */
  function InsertString(x: string, s: seq<string>): (r: seq<string>)
    ensures multiset(r) == multiset(s) + multiset{x}
  {
    if s == [] || !LexLess(s[0], x) then [x] + s
    else
      assert s == [s[0]] + s[1..];
      [s[0]] + InsertString(x, s[1..])
  }

  /** `s.sort()` on strings. */
  function SortStrings(s: seq<string>): (r: seq<string>)
    ensures multiset(r) == multiset(s)
  {
    if s == [] then []
    else
      assert s == [s[0]] + s[1..];
      InsertString(s[0], SortStrings(s[1..]))
  }

  lemma IncreasingTail(s: seq<string>)
    requires Increasing(s) && s != []
    ensures Increasing(s[1..])
  {
    var t := s[1..];
    forall i, j | 0 <= i < j < |t| ensures LexLess(t[i], t[j]) { assert t[i] == s[i + 1] && t[j] == s[j + 1]; }
  }

  /** A head below every element of an ascending list keeps it ascending. */
  lemma PrependIncreasing(h: string, t: seq<string>)
    requires Increasing(t)
    requires forall j :: 0 <= j < |t| ==> LexLess(h, t[j])
    ensures Increasing([h] + t)
  {
    var r := [h] + t;
    forall i, j | 0 <= i < j < |r| ensures LexLess(r[i], r[j]) {
      if i > 0 { assert r[i] == t[i - 1] && r[j] == t[j - 1]; } else { assert r[j] == t[j - 1]; }
    }
  }

  /** The head of an ascending list is below every element of its tail. */
  lemma HeadBelowTail(s: seq<string>)
    requires Increasing(s) && s != []
    ensures forall j :: 0 <= j < |s[1..]| ==> LexLess(s[0], s[1..][j])
  {
    forall j | 0 <= j < |s[1..]| ensures LexLess(s[0], s[1..][j]) { assert s[1..][j] == s[j + 1]; }
  }

  /** Every element of the insertion of `x` into the tail of `s` is above `s[0]`. */
  lemma HeadBelowInsert(x: string, s: seq<string>)
    requires Increasing(s) && s != [] && LexLess(s[0], x)
    ensures forall j :: 0 <= j < |InsertString(x, s[1..])| ==> LexLess(s[0], InsertString(x, s[1..])[j])
  {
    var t := s[1..];
    var tail := InsertString(x, t);
    HeadBelowTail(s);
    forall j | 0 <= j < |tail| ensures LexLess(s[0], tail[j]) {
      assert tail[j] in multiset(tail);
      assert tail[j] in multiset(t) || tail[j] == x;
      if tail[j] != x {
        var k :| 0 <= k < |t| && t[k] == tail[j];
      }
    }
  }

  lemma {:induction false} InsertIncreasing(x: string, s: seq<string>)
    requires Increasing(s) && x !in s
    ensures Increasing(InsertString(x, s))
  {
    if s == [] || !LexLess(s[0], x) {
      if s != [] {
        LexLessTotal(x, s[0]);
        forall j | 0 <= j < |s| ensures LexLess(x, s[j]) {
          if j > 0 { LexLessTransitive(x, s[0], s[j]); }
        }
      }
      PrependIncreasing(x, s);
    } else {
      var t := s[1..];
      IncreasingTail(s);
      assert x !in t;
      InsertIncreasing(x, t);
      HeadBelowInsert(x, s);
      PrependIncreasing(s[0], InsertString(x, t));
    }
  }

  lemma {:induction false} SortIncreasing(s: seq<string>)
    requires NoDuplicates(s)
    ensures Increasing(SortStrings(s))
  {
    if s != [] {
      var t := s[1..];
      assert NoDuplicates(t) by {
        forall i, j | 0 <= i < j < |t| ensures t[i] != t[j] { assert t[i] == s[i + 1] && t[j] == s[j + 1]; }
      }
      SortIncreasing(t);
      assert s[0] !in multiset(t);
      assert s[0] !in SortStrings(t) by {
        assert multiset(SortStrings(t)) == multiset(t);
      }
      InsertIncreasing(s[0], SortStrings(t));
    }
  }

  /** `[...new Set(orders.map(order => order.table))].sort()` */
  function AvailableTables(orders: seq<KitchenOrder>): seq<string> {
    SortStrings(Distinct(TablesOf(orders)))
  }

  /** The table list is strictly ascending (so has no repeats) and lists
      exactly the tables that occur in the orders. */
  lemma AvailableTablesSpec(orders: seq<KitchenOrder>)
    ensures Increasing(AvailableTables(orders))
    ensures forall t :: t in AvailableTables(orders) <==> exists i :: 0 <= i < |orders| && orders[i].table == t
  {
    var d := Distinct(TablesOf(orders));
    SortIncreasing(d);
    forall t ensures t in AvailableTables(orders) <==> t in d {
      assert t in AvailableTables(orders) <==> t in multiset(AvailableTables(orders));
      assert t in d <==> t in multiset(d);
    }
    forall t ensures t in TablesOf(orders) <==> exists i :: 0 <= i < |orders| && orders[i].table == t {
      if t in TablesOf(orders) {
        var i :| 0 <= i < |TablesOf(orders)| && TablesOf(orders)[i] == t;
        assert orders[i].table == t;
      }
      if exists i :: 0 <= i < |orders| && orders[i].table == t {
        var i :| 0 <= i < |orders| && orders[i].table == t;
        assert TablesOf(orders)[i] == t;
      }
    }
  }

  lemma IncreasingDistinct(s: seq<string>, i: int, j: int)
    requires Increasing(s) && 0 <= i < |s| && 0 <= j < |s| && i != j
    ensures s[i] != s[j]
  {
    if i < j { LexLessIrreflexive(s[i]); } else { LexLessIrreflexive(s[j]); }
  }

  /** A non-empty list holds its first element. */
  lemma HeadIn(s: seq<string>)
    ensures s != [] ==> s[0] in s
  {
  }

  /** There is only one ascending list of a given set of tables, so the
      table list is determined by the tables that occur. */
  lemma {:induction false} IncreasingUnique(a: seq<string>, b: seq<string>)
    requires Increasing(a) && Increasing(b)
    requires forall x :: x in a <==> x in b
    ensures a == b
  {
    if a == [] {
      HeadIn(b);
    } else {
      assert a[0] in a;
      assert b != [];
      assert b[0] in b;
      if a[0] != b[0] {
        var k :| 0 <= k < |b| && b[k] == a[0];
        var m :| 0 <= m < |a| && a[m] == b[0];
        assert k != 0 && m != 0;
        assert LexLess(b[0], a[0]) && LexLess(a[0], b[0]);
        LexLessAsymmetric(a[0], b[0]);
      }
      var a', b' := a[1..], b[1..];
      forall x ensures x in a' <==> x in b' {
        if x in a' {
          var k :| 0 <= k < |a'| && a'[k] == x;
          IncreasingDistinct(a, 0, k + 1);
          assert x in b;
          var m :| 0 <= m < |b| && b[m] == x;
          assert m != 0;
          assert b'[m - 1] == x;
        }
        if x in b' {
          var k :| 0 <= k < |b'| && b'[k] == x;
          IncreasingDistinct(b, 0, k + 1);
          assert x in a;
          var m :| 0 <= m < |a| && a[m] == x;
          assert m != 0;
          assert a'[m - 1] == x;
        }
      }
      IncreasingTail(a);
      IncreasingTail(b);
      IncreasingUnique(a', b');
      assert a == [a[0]] + a' && b == [b[0]] + b';
    }
  }

  // ------------------------------------------------------------ local updates

  function Completed(o: KitchenOrder): KitchenOrder {
    o.(status := Some("completed"))
  }

  /** The local update of `markOrderComplete(orderId)`, after the service call succeeded. */
  function MarkOrderComplete(orders: seq<KitchenOrder>, id: int): (r: seq<KitchenOrder>)
    ensures |r| == |orders|
    ensures forall i :: 0 <= i < |orders| && orders[i].id == id ==> r[i] == Completed(orders[i])
    ensures forall i :: 0 <= i < |orders| && orders[i].id != id ==> r[i] == orders[i]
  {
    seq(|orders|, i requires 0 <= i < |orders| => if orders[i].id == id then Completed(orders[i]) else orders[i])
  }

  lemma MarkOrderCompleteIdempotent(orders: seq<KitchenOrder>, id: int)
    ensures MarkOrderComplete(MarkOrderComplete(orders, id), id) == MarkOrderComplete(orders, id)
  {
  }

  function LacksOrderId(id: int): KitchenOrder -> bool {
    (o: KitchenOrder) => o.id != id
  }

  /** Completing an order takes exactly that order out of the pending view,
      whatever the table and search selections are. */
  lemma {:induction false} CompletingLeavesPendingView(orders: seq<KitchenOrder>, id: int, tableFilter: string, term: string)
    ensures FilteredOrders(MarkOrderComplete(orders, id), "pending", tableFilter, term)
      == Filter(FilteredOrders(orders, "pending", tableFilter, term), LacksOrderId(id))
  {
    FilteredOrdersIsFilter(MarkOrderComplete(orders, id), "pending", tableFilter, term);
    FilteredOrdersIsFilter(orders, "pending", tableFilter, term);
    var p := ShownBy("pending", tableFilter, term);
    var pq: KitchenOrder -> bool := (o: KitchenOrder) => p(o) && o.id != id;
    FilterFilter(orders, p, LacksOrderId(id), pq);
    PendingViewStep(orders, id, p, pq);
  }

  lemma {:induction false} PendingViewStep(orders: seq<KitchenOrder>, id: int, p: KitchenOrder -> bool, pq: KitchenOrder -> bool)
    requires forall o :: p(o) ==> StatusKeeps("pending", o)
    requires forall o :: p(Completed(o)) ==> false
    requires forall o :: pq(o) == (p(o) && o.id != id)
    ensures Filter(MarkOrderComplete(orders, id), p) == Filter(orders, pq)
  {
    if orders != [] {
      var m := MarkOrderComplete(orders, id);
      assert m[1..] == MarkOrderComplete(orders[1..], id);
      PendingViewStep(orders[1..], id, p, pq);
      if orders[0].id == id {
        assert !p(m[0]);
      } else {
        assert m[0] == orders[0];
      }
    }
  }

  /** The local update of `deleteOrder(orderId)`: every order with that id goes. */
  function DeleteOrder(orders: seq<KitchenOrder>, id: int): (r: seq<KitchenOrder>)
    ensures forall o :: o in r <==> o in orders && o.id != id
    ensures Subsequence(r, orders)
  {
    FilterSubsequence(orders, LacksOrderId(id));
    Filter(orders, LacksOrderId(id))
  }

  /** Deleting an id twice is deleting it once; deleting an absent id changes nothing. */
  lemma DeleteOrderIdempotent(orders: seq<KitchenOrder>, id: int)
    ensures DeleteOrder(DeleteOrder(orders, id), id) == DeleteOrder(orders, id)
    ensures (forall i :: 0 <= i < |orders| ==> orders[i].id != id) ==> DeleteOrder(orders, id) == orders
  {
    FilterIdempotent(orders, LacksOrderId(id));
    FilterKeepsAll(orders, LacksOrderId(id));
  }

  // ------------------------------------------------------------ totals

  function ItemAmount(item: KitchenItem): int {
    item.price * item.quantity
  }

  /** `calculateTotal(cart)`: `cart.reduce((sum, item) => sum + item.price * item.quantity, 0)`. */
  function CalculateTotal(cart: seq<KitchenItem>): (r: int)
    ensures cart == [] ==> r == 0
  {
    Sum(cart, ItemAmount)
  }

  /** Prices and quantities that are not negative give a total that is not negative. */
  lemma CalculateTotalNonNegative(cart: seq<KitchenItem>)
    requires forall i :: 0 <= i < |cart| ==> cart[i].price >= 0 && cart[i].quantity >= 0
    ensures CalculateTotal(cart) >= 0
  {
    SumNonNegative(cart, ItemAmount);
  }

  /** The total of a cart is the totals of its parts added up. */
  lemma CalculateTotalSplit(a: seq<KitchenItem>, b: seq<KitchenItem>)
    ensures CalculateTotal(a + b) == CalculateTotal(a) + CalculateTotal(b)
  {
    SumConcat(a, b, ItemAmount);
  }

  lemma CalculateTotalOne(item: KitchenItem)
    ensures CalculateTotal([item]) == item.price * item.quantity
  {
    assert [item][..0] == [];
    assert Sum([item], ItemAmount) == Sum([item][..0], ItemAmount) + ItemAmount(item);
  }

  // ------------------------------------------------------------ time ago

  /** What `getTimeAgo` shows; NaNDaysAgo is the text a date that does not parse ends in. */
  datatype TimeAgo = JustNow | MinutesAgo(minutes: nat) | HoursAgo(hours: nat) | DaysAgo(days: nat) | NaNDaysAgo

  /** `Math.floor((now - orderTime) / (1000 * 60))`: whole minutes, rounded down. */
  function ElapsedMinutes(now: int, t: int): int {
    (now - t) / 60000
  }

  /** `getTimeAgo(dateString)` with the clock reading `now` (milliseconds). */
  function GetTimeAgo(now: int, orderTime: Option<int>): (r: TimeAgo)
    ensures orderTime.None? <==> r == NaNDaysAgo
    ensures orderTime.Some? ==>
      var d := ElapsedMinutes(now, orderTime.value);
      (r == JustNow <==> d < 1)
      && (r.MinutesAgo? <==> 1 <= d < 60)
      && (r.HoursAgo? <==> 60 <= d < 1440)
      && (r.DaysAgo? <==> 1440 <= d)
      && (r.MinutesAgo? ==> r.minutes == d)
      && (r.HoursAgo? ==> 1 <= r.hours <= 23 && r.hours * 60 <= d < r.hours * 60 + 60)
      && (r.DaysAgo? ==> 1 <= r.days && r.days * 1440 <= d < r.days * 1440 + 1440)
  {
    match orderTime
    case None => NaNDaysAgo
    case Some(t) =>
      var d := ElapsedMinutes(now, t);
      if d < 1 then JustNow
      else if d < 60 then MinutesAgo(d)
      else if d < 1440 then HoursAgo(d / 60)
      else DaysAgo(d / 1440)
  }

  /** The unit a label counts in, smallest first. */
  function UnitRank(a: TimeAgo): nat {
    match a
    case JustNow => 0
    case MinutesAgo(_) => 1
    case HoursAgo(_) => 2
    case DaysAgo(_) => 3
    case NaNDaysAgo => 4
  }

  lemma DivMonotone(a: int, b: int, k: int)
    requires a <= b && k > 0
    ensures a / k <= b / k
  {
    if a / k > b / k {
      assert a == k * (a / k) + a % k;
      assert b == k * (b / k) + b % k;
      MulAtLeast(a / k - b / k, k);
    }
  }

  /** Of two orders on the same screen, the older never shows a smaller unit. */
  lemma OlderNeverFresher(now: int, older: int, newer: int)
    requires older <= newer
    ensures UnitRank(GetTimeAgo(now, Some(older))) >= UnitRank(GetTimeAgo(now, Some(newer)))
  {
    DivMonotone(now - newer, now - older, 60000);
  }

  /** The text of a label. */
  function Label(a: TimeAgo): (r: string)
    ensures a.MinutesAgo? ==> |r| > 8 && AllDigits(r[..|r| - 8]) && DigitsValue(r[..|r| - 8]) == a.minutes
    ensures a.HoursAgo? ==> |r| > 10 && AllDigits(r[..|r| - 10]) && DigitsValue(r[..|r| - 10]) == a.hours
    ensures a.DaysAgo? ==> |r| > 9 && AllDigits(r[..|r| - 9]) && DigitsValue(r[..|r| - 9]) == a.days
  {
    match a
    case JustNow => "Just now"
    case MinutesAgo(m) =>
      NatToStringRoundTrip(m);
      assert (NatToString(m) + " min ago")[..|NatToString(m)|] == NatToString(m);
      NatToString(m) + " min ago"
    case HoursAgo(h) =>
      NatToStringRoundTrip(h);
      assert (NatToString(h) + " hours ago")[..|NatToString(h)|] == NatToString(h);
      NatToString(h) + " hours ago"
    case DaysAgo(n) =>
      NatToStringRoundTrip(n);
      assert (NatToString(n) + " days ago")[..|NatToString(n)|] == NatToString(n);
      NatToString(n) + " days ago"
    case NaNDaysAgo => "NaN days ago"
  }
}
