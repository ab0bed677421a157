/** The derived views of localStorageService.js: order statistics, the
    popularity ranking and revenue per day, as functions of the order list,
    with the facts the service promises about them. */
module StorageAnalytics {
  import opened Wrappers
  import opened Seqs
  import opened StorageData

  // ---------------------------------------------------------------- statistics

  datatype Statistics = Statistics(
    totalOrders: nat, completedOrders: nat, pendingOrders: nat, totalRevenue: int, completionRate: real)

  /** `order.completed || order.status === 'completed'` */
  predicate IsCompleted(o: Order) {
    o.completed || o.status == Some("completed")
  }

  /** `!order.completed && order.status !== 'completed'` */
  predicate IsPending(o: Order) {
    !o.completed && o.status != Some("completed")
  }

  /** `completedOrders / totalOrders * 100`, and 0 when there are no orders. */
  function CompletionRate(completed: nat, total: nat): (r: real)
    requires completed <= total
    ensures total == 0 ==> r == 0.0
    ensures total > 0 ==> r * total as real == 100.0 * completed as real
    ensures 0.0 <= r <= 100.0
  {
    if total == 0 then 0.0
    else
      var q := completed as real / total as real;
      assert q * total as real == completed as real;
      QuotientAtMostOne(completed as real, total as real);
      q * 100.0
  }

  /** A part over a positive whole is at most one. */
  lemma QuotientAtMostOne(c: real, t: real)
    requires 0.0 <= c <= t && t > 0.0
    ensures c / t <= 1.0
  {
    assert c / t * t == c;
    assert (1.0 - c / t) * t == t - c;
  }

  /** `getOrderStatistics()` over the given orders; the rate is exact (no `toFixed`). */
  function OrderStatistics(orders: seq<Order>): (r: Statistics)
    ensures r.totalOrders == |orders|
    ensures r.completedOrders + r.pendingOrders == r.totalOrders
    ensures r.completedOrders == |Filter(orders, IsCompleted)|
    ensures r.pendingOrders == |Filter(orders, IsPending)|
    ensures r.totalRevenue == Sum(orders, OrderTotal)
    ensures r.completedOrders <= r.totalOrders && r.completionRate == CompletionRate(r.completedOrders, r.totalOrders)
  {
    FilterPartition(orders, IsCompleted, IsPending);
    var completed := |Filter(orders, IsCompleted)|;
    Statistics(|orders|, completed, |Filter(orders, IsPending)|, Sum(orders, OrderTotal),
               CompletionRate(completed, |orders|))
  }

  // ---------------------------------------------------------------- popularity

  /** `order.cart`, absent carts read as empty (the `if (order.cart)` guard). */
  function CartOf(o: Order): seq<QtyLine> {
    if o.cart.Some? then o.cart.value else []
  }

  /** Every cart line of every order, in visiting order. */
  function AllLines(orders: seq<Order>): seq<QtyLine> {
    if orders == [] then [] else AllLines(orders[..|orders| - 1]) + CartOf(orders[|orders| - 1])
  }

  /** The revenue statistic is the total of all cart lines taken together. */
  lemma {:induction false} RevenueIsAllLines(orders: seq<Order>)
    ensures Sum(orders, OrderTotal) == CartRevenue(AllLines(orders))
  {
    if orders != [] {
      var init := orders[..|orders| - 1];
      RevenueIsAllLines(init);
      CartRevenueConcat(AllLines(init), CartOf(orders[|orders| - 1]));
    }
  }

  /** The `item.name` of each line, in order. */
  function Names(lines: seq<QtyLine>): (r: seq<string>)
    ensures |r| == |lines|
  {
    if lines == [] then [] else Names(lines[..|lines| - 1]) + [lines[|lines| - 1].dish.name]
  }

  /** The sum of `qty` over the lines named `name`: what `dishCounts[name]` accumulates. */
  function QtyFor(lines: seq<QtyLine>, name: string): int {
    if lines == [] then 0
    else QtyFor(lines[..|lines| - 1], name) + (if lines[|lines| - 1].dish.name == name then lines[|lines| - 1].qty else 0)
  }

  datatype PopularDish = PopularDish(name: string, count: int)

  /** `Object.entries(dishCounts)`: one entry per distinct name, in order of first appearance.
      This is the reference definition of the tally: `TallyFacts` states what it means, and
      the counting loops of `TallyOrders` are proved to build the same entries. */
  function Tally(lines: seq<QtyLine>): (r: seq<PopularDish>)
    ensures |r| == |Distinct(Names(lines))|
    ensures forall i :: 0 <= i < |r| ==> r[i] == PopularDish(Distinct(Names(lines))[i], QtyFor(lines, Distinct(Names(lines))[i]))
  {
    var ns := Distinct(Names(lines));
    seq(|ns|, i requires 0 <= i < |ns| => PopularDish(ns[i], QtyFor(lines, ns[i])))
  }

  /** Place `x` before the first entry whose count is not larger: the stable descending insertion. */
  function InsertByCount(x: PopularDish, s: seq<PopularDish>): (r: seq<PopularDish>)
    ensures multiset(r) == multiset(s) + multiset{x}
  {
    if s == [] || s[0].count <= x.count then [x] + s
    else
      assert s == [s[0]] + s[1..];
      [s[0]] + InsertByCount(x, s[1..])
  }

  /** `.sort((a, b) => b.count - a.count)`, which is stable. */
  function SortByCount(s: seq<PopularDish>): (r: seq<PopularDish>)
    ensures multiset(r) == multiset(s)
  {
    if s == [] then []
    else
      assert s == [s[0]] + s[1..];
      InsertByCount(s[0], SortByCount(s[1..]))
  }

  predicate NonIncreasing(s: seq<PopularDish>) {
    forall i, j :: 0 <= i < j < |s| ==> s[i].count >= s[j].count
  }

  predicate DistinctNames(s: seq<PopularDish>) {
    forall i, j :: 0 <= i < j < |s| ==> s[i].name != s[j].name
  }

  function HasCount(c: int): PopularDish -> bool {
    (e: PopularDish) => e.count == c
  }

  /** A head counted at least as high as every element keeps the list non-increasing. */
  lemma PrependNonIncreasing(h: PopularDish, t: seq<PopularDish>)
    requires NonIncreasing(t)
    requires forall k :: 0 <= k < |t| ==> h.count >= t[k].count
    ensures NonIncreasing([h] + t)
  {
    var r := [h] + t;
    forall i, j | 0 <= i < j < |r| ensures r[i].count >= r[j].count {
      if i > 0 { assert r[i] == t[i - 1] && r[j] == t[j - 1]; } else { assert r[j] == t[j - 1]; }
    }
  }

  /** Inserting below the head of a non-increasing list leaves every element at most the head's count. */
  lemma HeadAboveInsert(x: PopularDish, s: seq<PopularDish>)
    requires NonIncreasing(s) && s != [] && s[0].count > x.count
    ensures forall k :: 0 <= k < |InsertByCount(x, s[1..])| ==> s[0].count >= InsertByCount(x, s[1..])[k].count
  {
    var t := InsertByCount(x, s[1..]);
    forall k | 0 <= k < |t| ensures s[0].count >= t[k].count {
      assert t[k] in multiset(t);
      assert t[k] in multiset(s[1..]) + multiset{x};
      if t[k] != x {
        assert t[k] in multiset(s[1..]);
        var m :| 0 <= m < |s[1..]| && s[1..][m] == t[k];
        assert s[m + 1] == t[k];
      }
    }
  }

  lemma NonIncreasingTail(s: seq<PopularDish>)
    requires NonIncreasing(s) && s != []
    ensures NonIncreasing(s[1..])
  {
    var t := s[1..];
    forall i, j | 0 <= i < j < |t| ensures t[i].count >= t[j].count { assert t[i] == s[i + 1] && t[j] == s[j + 1]; }
  }

  lemma {:induction false} InsertNonIncreasing(x: PopularDish, s: seq<PopularDish>)
    requires NonIncreasing(s)
    ensures NonIncreasing(InsertByCount(x, s))
  {
    if s != [] && s[0].count > x.count {
      NonIncreasingTail(s);
      InsertNonIncreasing(x, s[1..]);
      HeadAboveInsert(x, s);
      PrependNonIncreasing(s[0], InsertByCount(x, s[1..]));
    } else {
      PrependNonIncreasing(x, s);
    }
  }

  /** The entries with any one count keep their relative order through an insertion. */
  lemma {:induction false} InsertStable(x: PopularDish, s: seq<PopularDish>, c: int)
    ensures Filter(InsertByCount(x, s), HasCount(c)) == (if x.count == c then [x] else []) + Filter(s, HasCount(c))
  {
    if s == [] || s[0].count <= x.count {
      assert ([x] + s)[1..] == s;
    } else {
      InsertStable(x, s[1..], c);
      assert ([s[0]] + InsertByCount(x, s[1..]))[1..] == InsertByCount(x, s[1..]);
    }
  }

  /** The ranking is sorted non-increasingly by count. */
  lemma {:induction false} SortNonIncreasing(s: seq<PopularDish>)
    ensures NonIncreasing(SortByCount(s))
  {
    if s != [] {
      SortNonIncreasing(s[1..]);
      InsertNonIncreasing(s[0], SortByCount(s[1..]));
    }
  }

  /** Stability: among entries with equal count, the encounter order is kept. */
  lemma {:induction false} SortStable(s: seq<PopularDish>, c: int)
    ensures Filter(SortByCount(s), HasCount(c)) == Filter(s, HasCount(c))
  {
    if s != [] {
      SortStable(s[1..], c);
      InsertStable(s[0], SortByCount(s[1..]), c);
    }
  }

  lemma {:induction false} InsertDistinctNames(x: PopularDish, s: seq<PopularDish>)
    requires DistinctNames(s)
    requires forall i :: 0 <= i < |s| ==> s[i].name != x.name
    ensures DistinctNames(InsertByCount(x, s))
  {
    if s != [] && s[0].count > x.count {
      InsertDistinctNames(x, s[1..]);
      var t := InsertByCount(x, s[1..]);
      forall k | 0 <= k < |t| ensures t[k].name != s[0].name {
        assert t[k] in multiset(s[1..]) + multiset{x};
        if t[k] != x {
          assert t[k] in s[1..];
        }
      }
    }
  }

  lemma {:induction false} SortDistinctNames(s: seq<PopularDish>)
    requires DistinctNames(s)
    ensures DistinctNames(SortByCount(s))
  {
    if s != [] {
      SortDistinctNames(s[1..]);
      var t := SortByCount(s[1..]);
      forall k | 0 <= k < |t| ensures t[k].name != s[0].name {
        assert t[k] in multiset(s[1..]);
        assert t[k] in s[1..];
      }
      InsertDistinctNames(s[0], t);
    }
  }

  /** `getPopularDishes(limit)` over the given orders; the source's default limit is 10. */
  function PopularDishes(orders: seq<Order>, limit: int): seq<PopularDish> {
    SliceTo(SortByCount(Tally(AllLines(orders))), limit)
  }

  /** The limit `getPopularDishes()` uses when called without one. */
  const DefaultPopularLimit: int := 10

  /** The window `getRevenueByDate()` uses when called without one. */
  const DefaultRevenueDays: int := 7

  /** The tally has one entry per ordered name, carrying that name's total. */
  lemma TallyFacts(lines: seq<QtyLine>)
    ensures DistinctNames(Tally(lines))
    ensures forall e :: e in Tally(lines) ==> e.count == QtyFor(lines, e.name) && e.name in Names(lines)
    ensures forall n :: n in Names(lines) ==> exists e :: e in Tally(lines) && e.name == n
  {
    var ns := Distinct(Names(lines));
    var t := Tally(lines);
    forall i, j | 0 <= i < j < |t| ensures t[i].name != t[j].name {
      assert t[i].name == ns[i] && t[j].name == ns[j];
    }
    forall e | e in t ensures e.count == QtyFor(lines, e.name) && e.name in Names(lines) {
      var k :| 0 <= k < |t| && t[k] == e;
      assert ns[k] in ns;
    }
    forall n | n in Names(lines) ensures exists e :: e in t && e.name == n {
      assert n in ns;
      var k :| 0 <= k < |ns| && ns[k] == n;
      assert t[k] in t;
    }
  }

  /** Sorting neither adds nor drops entries. */
  lemma SortKeepsEntries(s: seq<PopularDish>)
    ensures |SortByCount(s)| == |s|
    ensures forall e :: e in SortByCount(s) <==> e in s
  {
    var r := SortByCount(s);
    assert |r| == |multiset(r)| == |multiset(s)| == |s|;
    forall e ensures e in r <==> e in s {
      assert e in r <==> e in multiset(r);
      assert e in s <==> e in multiset(s);
    }
  }

  /** The ranking names each dish once and is sorted non-increasingly by count. */
  lemma PopularDishesSorted(orders: seq<Order>, limit: int)
    ensures DistinctNames(PopularDishes(orders, limit))
    ensures NonIncreasing(PopularDishes(orders, limit))
  {
    var t := Tally(AllLines(orders));
    TallyFacts(AllLines(orders));
    SortDistinctNames(t);
    SortNonIncreasing(t);
  }

  /** Every ranked entry is an ordered name with the total `qty` ordered under it,
      and there are at most `limit` of them. */
  lemma PopularDishesCounts(orders: seq<Order>, limit: int)
    ensures var r := PopularDishes(orders, limit);
      && (forall i :: 0 <= i < |r| ==> r[i].count == QtyFor(AllLines(orders), r[i].name))
      && (forall i :: 0 <= i < |r| ==> r[i].name in Names(AllLines(orders)))
      && (limit >= 0 ==> |r| <= limit)
  {
    var t := Tally(AllLines(orders));
    var sorted := SortByCount(t);
    var r := PopularDishes(orders, limit);
    TallyFacts(AllLines(orders));
    SortKeepsEntries(t);
    forall i | 0 <= i < |r| ensures r[i] in t {
      assert r[i] == sorted[i];
    }
  }

  /** When the limit is at least the number of distinct names, every ordered name is ranked. */
  lemma PopularDishesComplete(orders: seq<Order>, limit: int)
    requires limit >= |Distinct(Names(AllLines(orders)))|
    ensures forall n :: n in Names(AllLines(orders)) ==>
      exists i :: 0 <= i < |PopularDishes(orders, limit)| && PopularDishes(orders, limit)[i].name == n
  {
    var t := Tally(AllLines(orders));
    var sorted := SortByCount(t);
    var r := PopularDishes(orders, limit);
    TallyFacts(AllLines(orders));
    SortKeepsEntries(t);
    assert r == sorted;
    forall n | n in Names(AllLines(orders)) ensures exists i :: 0 <= i < |r| && r[i].name == n {
      var e :| e in t && e.name == n;
      assert e in r;
    }
  }

  /** One more order extends the visited lines by its cart. */
  lemma AllLinesStep(orders: seq<Order>, i: nat)
    requires i < |orders|
    ensures AllLines(orders[..i + 1]) == AllLines(orders[..i]) + CartOf(orders[i])
  {
    assert orders[..i + 1][..i] == orders[..i];
  }

  /** One more line extends the distinct names at most by its own name. */
  lemma TallyStep(seen: seq<QtyLine>, line: QtyLine)
    ensures Distinct(Names(seen + [line])) ==
      (if line.dish.name in Distinct(Names(seen)) then Distinct(Names(seen)) else Distinct(Names(seen)) + [line.dish.name])
  {
    var ns := Names(seen + [line]);
    assert ns == Names(seen) + [line.dish.name];
    assert ns[..|ns| - 1] == Names(seen);
  }

  /** One more line adds its `qty` to its own name's total only. */
  lemma QtyForStep(seen: seq<QtyLine>, line: QtyLine, n: string)
    ensures QtyFor(seen + [line], n) == QtyFor(seen, n) + (if n == line.dish.name then line.qty else 0)
  {
    assert (seen + [line])[..|seen|] == seen;
  }

  /** A name no line carries has total 0. */
  lemma {:induction false} QtyForAbsent(lines: seq<QtyLine>, name: string)
    requires name !in Names(lines)
    ensures QtyFor(lines, name) == 0
  {
    if lines != [] {
      var init := lines[..|lines| - 1];
      assert Names(lines) == Names(init) + [lines[|lines| - 1].dish.name];
      QtyForAbsent(init, name);
    }
  }

  /** The state of the `dishCounts` loop after visiting `lines`: the keys in insertion
      order and the running total per key. */
  ghost predicate Tallied(keys: seq<string>, counts: map<string, int>, lines: seq<QtyLine>) {
    && keys == Distinct(Names(lines))
    && (forall n :: n in counts <==> n in keys)
    && (forall n :: n in counts ==> counts[n] == QtyFor(lines, n))
  }

  /** Adding `qty` to a counted name keeps every total right after one more line. */
  lemma CountsBump(counts: map<string, int>, seen: seq<QtyLine>, line: QtyLine)
    requires line.dish.name in counts
    requires forall n :: n in counts ==> counts[n] == QtyFor(seen, n)
    ensures forall n :: n in counts[line.dish.name := counts[line.dish.name] + line.qty] ==>
      counts[line.dish.name := counts[line.dish.name] + line.qty][n] == QtyFor(seen + [line], n)
  {
    var name := line.dish.name;
    var counts' := counts[name := counts[name] + line.qty];
    forall n | n in counts' ensures counts'[n] == QtyFor(seen + [line], n) {
      QtyForStep(seen, line, n);
    }
  }

  /** Starting a new name at `qty` keeps every total right after one more line. */
  lemma CountsAdd(counts: map<string, int>, seen: seq<QtyLine>, line: QtyLine)
    requires line.dish.name !in Names(seen)
    requires forall n :: n in counts ==> counts[n] == QtyFor(seen, n)
    ensures forall n :: n in counts[line.dish.name := 0 + line.qty] ==>
      counts[line.dish.name := 0 + line.qty][n] == QtyFor(seen + [line], n)
  {
    var name := line.dish.name;
    var counts' := counts[name := 0 + line.qty];
    forall n | n in counts' ensures counts'[n] == QtyFor(seen + [line], n) {
      QtyForStep(seen, line, n);
      if n == name {
        QtyForAbsent(seen, name);
      }
    }
  }

  /** `dishCounts[name] += qty` for a name already counted keeps the loop state. */
  lemma TalliedBump(keys: seq<string>, counts: map<string, int>, seen: seq<QtyLine>, line: QtyLine)
    requires Tallied(keys, counts, seen) && line.dish.name in counts
    ensures Tallied(keys, counts[line.dish.name := counts[line.dish.name] + line.qty], seen + [line])
  {
    TallyStep(seen, line);
    CountsBump(counts, seen, line);
    assert counts[line.dish.name := counts[line.dish.name] + line.qty].Keys == counts.Keys;
    TalliedIntro(keys, counts[line.dish.name := counts[line.dish.name] + line.qty], seen + [line]);
  }

  lemma TalliedIntro(keys: seq<string>, counts: map<string, int>, lines: seq<QtyLine>)
    requires keys == Distinct(Names(lines))
    requires forall n :: n in counts <==> n in keys
    requires forall n :: n in counts ==> counts[n] == QtyFor(lines, n)
    ensures Tallied(keys, counts, lines)
  {
  }

  /** `dishCounts[name] = (undefined || 0) + qty` for a new name appends it and keeps the loop state. */
  lemma TalliedAdd(keys: seq<string>, counts: map<string, int>, seen: seq<QtyLine>, line: QtyLine)
    requires Tallied(keys, counts, seen) && line.dish.name !in counts
    ensures Tallied(keys + [line.dish.name], counts[line.dish.name := 0 + line.qty], seen + [line])
  {
    var name := line.dish.name;
    var lines := seen + [line];
    var keys' := keys + [name];
    var counts' := counts[name := 0 + line.qty];
    TallyStep(seen, line);
    assert name !in keys;
    forall n ensures n in counts' <==> n in keys' {
      assert n in keys' <==> n in keys || n == name;
    }
    CountsAdd(counts, seen, line);
    TalliedIntro(keys', counts', lines);
  }

  /** One step of the inner `forEach`: `dishCounts[name] = (dishCounts[name] || 0) + qty`. */
  method TallyLine(keys0: seq<string>, counts0: map<string, int>, ghost seen: seq<QtyLine>, line: QtyLine)
    returns (keys: seq<string>, counts: map<string, int>)
    requires Tallied(keys0, counts0, seen)
    ensures Tallied(keys, counts, seen + [line])
  {
    var name := line.dish.name;
    if name in counts0 {
      TalliedBump(keys0, counts0, seen, line);
      keys, counts := keys0, counts0[name := counts0[name] + line.qty];
    } else {
      TalliedAdd(keys0, counts0, seen, line);
      keys, counts := keys0 + [name], counts0[name := 0 + line.qty];
    }
  }

  /** The inner `forEach` over one cart, run on the loop state reached after `done`. */
  method TallyCart(keys0: seq<string>, counts0: map<string, int>, ghost done: seq<QtyLine>, cart: seq<QtyLine>)
    returns (keys: seq<string>, counts: map<string, int>)
    requires Tallied(keys0, counts0, done)
    ensures Tallied(keys, counts, done + cart)
  {
    keys, counts := keys0, counts0;
    ghost var seen := done;
    var j := 0;
    while j < |cart|
      invariant 0 <= j <= |cart|
      invariant seen == done + cart[..j]
      invariant Tallied(keys, counts, seen)
    {
      var line := cart[j];
      keys, counts := TallyLine(keys, counts, seen, line);
      PrefixStep(done, cart, j);
      seen := seen + [line];
      j := j + 1;
    }
    assert cart[..|cart|] == cart;
  }

  /** The outer `forEach` over the orders; an order without a cart adds nothing. */
  method TallyOrders(os: seq<Order>) returns (keys: seq<string>, counts: map<string, int>)
    ensures Tallied(keys, counts, AllLines(os))
  {
    keys, counts := [], map[];
    var i := 0;
    assert os[..0] == [];
    while i < |os|
      invariant 0 <= i <= |os|
      invariant Tallied(keys, counts, AllLines(os[..i]))
    {
      keys, counts := TallyCart(keys, counts, AllLines(os[..i]), CartOf(os[i]));
      AllLinesStep(os, i);
      i := i + 1;
    }
    assert os[..|os|] == os;
  }

  /** `Object.entries(dishCounts)` of the final loop state is the tally of all lines. */
  lemma TalliedEntries(keys: seq<string>, counts: map<string, int>, lines: seq<QtyLine>)
    requires Tallied(keys, counts, lines)
    ensures forall k :: 0 <= k < |keys| ==> keys[k] in counts
    ensures seq(|keys|, k requires 0 <= k < |keys| && keys[k] in counts => PopularDish(keys[k], counts[keys[k]])) == Tally(lines)
  {
  }

  // ---------------------------------------------------------------- revenue by date

  /** The day of `new Date(order.createdAt || order.time)`; None when neither is there,
      where `toISOString` throws. */
  function OrderDate(o: Order): Option<int> {
    if o.createdAt.Some? then Some(DayOf(o.createdAt.value))
    else if o.time.Some? then Some(DayOf(o.time.value))
    else None
  }

  predicate AllDated(orders: seq<Order>) {
    forall i :: 0 <= i < |orders| ==> OrderDate(orders[i]).Some?
  }

  /** Today and the `days - 1` days before it. */
  function Window(days: int, today: int): (w: set<int>)
    ensures forall d :: d in w <==> today - days < d <= today
    decreases days
  {
    if days <= 0 then {} else Window(days - 1, today) + {today - days + 1}
  }

  /** The total of the orders dated `day`. */
  function DayRevenue(orders: seq<Order>, day: int): int {
    if orders == [] then 0
    else DayRevenue(orders[..|orders| - 1], day)
         + (if OrderDate(orders[|orders| - 1]) == Some(day) then OrderTotal(orders[|orders| - 1]) else 0)
  }

  /** One bucket per day of the window, each the total of the orders dated that day. */
  function Buckets(orders: seq<Order>, days: int, today: int): map<int, int> {
    map d | d in Window(days, today) :: DayRevenue(orders, d)
  }

  /** The buckets are keyed by exactly the days of the window, so there are `days` of them. */
  lemma BucketsKeys(orders: seq<Order>, days: int, today: int)
    requires days >= 0
    ensures Buckets(orders, days, today).Keys == Window(days, today)
    ensures |Buckets(orders, days, today).Keys| == days
  {
    WindowSize(days, today);
  }

  /** `getRevenueByDate(days)` with today's day number given; None when it throws. */
  function RevenueByDate(orders: seq<Order>, days: int, today: int): Option<map<int, int>> {
    if AllDated(orders) then Some(Buckets(orders, days, today)) else None
  }

  /** There are exactly `days` buckets (none for a non-positive `days`). */
  lemma {:induction false} WindowSize(days: int, today: int)
    ensures days >= 0 ==> |Window(days, today)| == days
    ensures days <= 0 ==> Window(days, today) == {}
  {
    if days > 0 {
      var w, d := Window(days - 1, today), today - days + 1;
      WindowSize(days - 1, today);
      assert d !in w;
      assert |Window(days, today)| == |w| + 1;
    } else {
      assert Window(days, today) == {};
    }
  }

  /** One more order adds its total to the day it is dated. */
  lemma DayRevenueStep(orders: seq<Order>, i: nat, day: int)
    requires i < |orders|
    ensures DayRevenue(orders[..i + 1], day)
            == DayRevenue(orders[..i], day) + (if OrderDate(orders[i]) == Some(day) then OrderTotal(orders[i]) else 0)
  {
    assert orders[..i + 1][..i] == orders[..i];
  }

  /** Zeroing one more day, counting back from today, widens the zeroed window by a day. */
  lemma ZeroBucketsStep(i: nat, today: int)
    ensures ZeroBuckets(i, today)[today - i := 0] == ZeroBuckets(i + 1, today)
  {
    assert ZeroBuckets(i, today)[today - i := 0].Keys == ZeroBuckets(i + 1, today).Keys;
  }

  /** The order loop's step: an order dated inside the window adds to its bucket. */
  lemma RevenueBucketsStep(orders: seq<Order>, j: nat, days: int, today: int, buckets: map<int, int>)
    requires j < |orders| && OrderDate(orders[j]).Some?
    requires AllDated(orders[..j])
    requires buckets == Buckets(orders[..j], days, today)
    ensures AllDated(orders[..j + 1])
    ensures var day := OrderDate(orders[j]).value;
      (if day in buckets then buckets[day := buckets[day] + OrderTotal(orders[j])] else buckets)
        == Buckets(orders[..j + 1], days, today)
  {
    var day := OrderDate(orders[j]).value;
    var next := if day in buckets then buckets[day := buckets[day] + OrderTotal(orders[j])] else buckets;
    assert orders[..j + 1] == orders[..j] + [orders[j]];
    forall d ensures DayRevenue(orders[..j + 1], d) == DayRevenue(orders[..j], d) + (if day == d then OrderTotal(orders[j]) else 0) {
      DayRevenueStep(orders, j, d);
    }
    assert next.Keys == buckets.Keys;
  }

  /** One bucket per day of the window, each 0. */
  function ZeroBuckets(days: int, today: int): map<int, int> {
    map d | d in Window(days, today) :: 0
  }

  /** With no orders every bucket is 0. */
  lemma NoOrdersNoRevenue(days: int, today: int)
    ensures RevenueByDate([], days, today) == Some(ZeroBuckets(days, today))
  {
    var m := RevenueByDate([], days, today).value;
    var z := ZeroBuckets(days, today);
    forall d | d in Window(days, today) ensures DayRevenue([], d) == 0 { }
    assert m.Keys == z.Keys;
    assert forall d :: d in m ==> m[d] == z[d];
    assert m == z;
  }

  /** One more order adds its cart total to its own day's bucket, if that day is in the window,
      and changes no other bucket. */
  lemma RevenueAddOrder(orders: seq<Order>, o: Order, days: int, today: int)
    requires AllDated(orders) && OrderDate(o).Some?
    ensures AllDated(orders + [o])
    ensures var before := RevenueByDate(orders, days, today).value;
            var after := RevenueByDate(orders + [o], days, today).value;
      && after.Keys == before.Keys
      && forall d :: d in after ==> after[d] == before[d] + (if OrderDate(o) == Some(d) then OrderTotal(o) else 0)
  {
    var all := orders + [o];
    assert all[..|all| - 1] == orders;
    forall i | 0 <= i < |all| ensures OrderDate(all[i]).Some? {
      if i < |orders| { assert all[i] == orders[i]; }
    }
  }

  /** An order outside the window changes nothing. */
  lemma RevenueIgnoresOutsideWindow(orders: seq<Order>, o: Order, days: int, today: int)
    requires AllDated(orders) && OrderDate(o).Some? && OrderDate(o).value !in Window(days, today)
    ensures RevenueByDate(orders + [o], days, today) == RevenueByDate(orders, days, today)
  {
    RevenueAddOrder(orders, o, days, today);
    var before := RevenueByDate(orders, days, today).value;
    var after := RevenueByDate(orders + [o], days, today).value;
    assert forall d :: d in after ==> after[d] == before[d];
    assert after == before;
  }
}
