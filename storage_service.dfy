/** `LocalStorageService` of localStorageService.js. Each of the five
    localStorage keys is a field; `None` is a key that is not stored, which
    the getters read as the empty collection (`|| '[]'`, `|| '{}'`). JSON
    serialisation is the identity here. */
module StorageService {
  import opened Wrappers
  import opened Seqs
  import opened Text
  import opened StorageData
  import opened StorageAnalytics

  /** What `exportData` returns and `importData` accepts; a `None` field is a missing or falsy one. */
  datatype Snapshot = Snapshot(
    orders: Option<seq<Order>>, dishes: Option<seq<Dish>>, categories: Option<seq<string>>,
    favorites: Option<seq<Favorite>>, settings: Option<Settings>, exportDate: Option<Instant>)

  datatype Backup = Backup(data: Option<Snapshot>, timestamp: Instant, version: string)

  const BackupVersion: string := "1.0"

  /** `if (!localStorage.getItem(key)) localStorage.setItem(key, default)` */
  function Seed<T>(stored: Option<T>, default: T): (r: Option<T>)
    ensures stored.Some? ==> r == stored
    ensures stored.None? ==> r == Some(default)
  {
    if stored.Some? then stored else Some(default)
  }

  /** `if (data.key) localStorage.setItem(key, data.key)` */
  function Import<T>(incoming: Option<T>, stored: Option<T>): (r: Option<T>)
    ensures incoming.Some? ==> r == incoming
    ensures incoming.None? ==> r == stored
  {
    if incoming.Some? then incoming else stored
  }

  function HasStatus(status: string): Order -> bool {
    (o: Order) => o.status == Some(status)
  }

  /** `order.customer && order.customer.toLowerCase().includes(name.toLowerCase())` */
  function CustomerMatches(name: string): Order -> bool {
    (o: Order) => o.customer.Some? && o.customer.value != [] && Contains(Lower(o.customer.value), Lower(name))
  }

  function AtTable(table: string): Order -> bool {
    (o: Order) => o.table == Some(table)
  }

  function InCategory(category: string): Dish -> bool {
    (d: Dish) => d.category == category
  }

  /** `searchDishes`: the lower-cased query occurs in the lower-cased name or category. */
  function DishMatches(query: string): Dish -> bool {
    (d: Dish) => Contains(Lower(d.name), Lower(query)) || Contains(Lower(d.category), Lower(query))
  }

  function IsNot(name: string): string -> bool {
    (c: string) => c != name
  }

  function HasFavoriteId(id: int): Favorite -> bool {
    (f: Favorite) => f.dish.id == id
  }

  function LacksFavoriteId(id: int): Favorite -> bool {
    (f: Favorite) => f.dish.id != id
  }

  predicate UniqueFavoriteIds(favs: seq<Favorite>) {
    forall i, j :: 0 <= i < j < |favs| ==> favs[i].dish.id != favs[j].dish.id
  }

  /** An empty query matches every order that has a non-empty customer name. */
  lemma EmptyCustomerQueryMatchesNamed(o: Order)
    ensures CustomerMatches("")(o) <==> o.customer.Some? && o.customer.value != []
  {
    assert Lower("") == "";
    if o.customer.Some? {
      assert StartsWith(Lower(o.customer.value), "");
    }
  }

  /** The search ignores the case of the query. */
  lemma SearchIgnoresQueryCase(q: string, d: Dish)
    ensures DishMatches(Lower(q))(d) == DishMatches(q)(d)
  {
    LowerIdempotent(q);
  }

  lemma LowerIdempotent(s: string)
    ensures Lower(Lower(s)) == Lower(s)
  {
    assert forall i :: 0 <= i < |s| ==> LowerChar(LowerChar(s[i])) == LowerChar(s[i]);
  }

  class LocalStorageService {
    var orders: Option<seq<Order>>
    var favorites: Option<seq<Favorite>>
    var dishes: Option<seq<Dish>>
    var categories: Option<seq<string>>
    var settings: Option<Settings>

    /** Every key is stored, as `initializeData` leaves it. */
    predicate Initialized()
      reads this
    {
      orders.Some? && favorites.Some? && dishes.Some? && categories.Some? && settings.Some?
    }

    /** The state of a store created on an empty localStorage, and after `clearAllData`. */
    predicate IsFresh()
      reads this
    {
      orders == Some([]) && favorites == Some([]) && dishes == Some(DefaultDishes)
      && categories == Some(DefaultCategories) && settings == Some(DefaultSettings)
    }

    constructor ()
      ensures IsFresh()
    {
      orders, favorites, dishes, categories, settings := None, None, None, None, None;
      new;
      InitializeData();
    }

    /** `initializeData()`: seeds exactly the keys that are not stored. */
    method InitializeData()
      modifies this
      ensures orders == Seed(old(orders), []) && favorites == Seed(old(favorites), [])
      ensures dishes == Seed(old(dishes), DefaultDishes) && categories == Seed(old(categories), DefaultCategories)
      ensures settings == Seed(old(settings), DefaultSettings)
      ensures Initialized()
      ensures old(Initialized()) ==>
        orders == old(orders) && favorites == old(favorites) && dishes == old(dishes)
        && categories == old(categories) && settings == old(settings)
    {
      if orders.None? { orders := Some([]); }
      if favorites.None? { favorites := Some([]); }
      if dishes.None? { dishes := Some(DefaultDishes); }
      if categories.None? { categories := Some(DefaultCategories); }
      if settings.None? { settings := Some(DefaultSettings); }
    }

    // ------------------------------------------------------------ orders

    function AllOrders(): seq<Order>
      reads this
    {
      orders.GetOr([])
    }

    /** `getOrderById(id)`: the first stored order with that id, if any. */
    function OrderById(id: int): (r: Option<Order>)
      reads this
      ensures r.Some? <==> exists i :: 0 <= i < |AllOrders()| && AllOrders()[i].id == id
      ensures r.Some? ==> r.value in AllOrders() && r.value.id == id
    {
      Find(AllOrders(), HasOrderId(id))
    }

    /** `addOrder(draft)` at instant `now`: appends the new order and returns it. */
    method AddOrder(draft: OrderPatch, now: Instant) returns (r: Order)
      modifies this
      ensures r == NewOrder(draft, now)
      ensures orders == Some(old(AllOrders()) + [r])
      ensures OrderById(r.id).Some?
      ensures favorites == old(favorites) && dishes == old(dishes) && categories == old(categories) && settings == old(settings)
    {
      r := NewOrder(draft, now);
      orders := Some(AllOrders() + [r]);
      assert AllOrders()[|AllOrders()| - 1] == r;
    }

    /** `updateOrder(id, patch)`: merges the patch into the first order with that id;
        with no such order nothing is written and the result is None. */
    method UpdateOrder(id: int, patch: OrderPatch) returns (r: Option<Order>)
      modifies this
      ensures match FindIndex(old(AllOrders()), HasOrderId(id))
        case None => r.None? && orders == old(orders)
        case Some(k) => r == Some(MergeOrder(old(AllOrders())[k], patch))
                        && orders == Some(old(AllOrders())[k := r.value])
      ensures |AllOrders()| == |old(AllOrders())|
      ensures favorites == old(favorites) && dishes == old(dishes) && categories == old(categories) && settings == old(settings)
    {
      var os := AllOrders();
      var k := FindIndex(os, HasOrderId(id));
      if k.None? {
        return None;
      }
      var updated := MergeOrder(os[k.value], patch);
      orders := Some(os[k.value := updated]);
      r := Some(updated);
    }

    /** `deleteOrder(id)`: drops every order with that id and keeps the rest in order. */
    method DeleteOrder(id: int) returns (r: bool)
      modifies this
      ensures r
      ensures orders == Some(Filter(old(AllOrders()), LacksOrderId(id)))
      ensures forall o :: o in AllOrders() <==> o in old(AllOrders()) && o.id != id
      ensures OrderById(id).None?
      ensures old(OrderById(id)).None? ==> AllOrders() == old(AllOrders())
      ensures favorites == old(favorites) && dishes == old(dishes) && categories == old(categories) && settings == old(settings)
    {
      FilterKeepsAll(AllOrders(), LacksOrderId(id));
      orders := Some(Filter(AllOrders(), LacksOrderId(id)));
      r := true;
    }

    /** `getOrdersByStatus(status)` */
    function OrdersByStatus(status: string): (r: seq<Order>)
      reads this
      ensures forall o :: o in r <==> o in AllOrders() && o.status == Some(status)
      ensures Subsequence(r, AllOrders())
    {
      FilterSubsequence(AllOrders(), HasStatus(status));
      Filter(AllOrders(), HasStatus(status))
    }

    /** `getOrdersByCustomer(name)`: case-insensitive substring match on a non-empty customer name. */
    function OrdersByCustomer(name: string): (r: seq<Order>)
      reads this
      ensures forall o :: o in r <==> o in AllOrders() && o.customer.Some? && o.customer.value != []
                                      && Contains(Lower(o.customer.value), Lower(name))
      ensures Subsequence(r, AllOrders())
    {
      FilterSubsequence(AllOrders(), CustomerMatches(name));
      Filter(AllOrders(), CustomerMatches(name))
    }

    /** `getOrdersByTable(table)` */
    function OrdersByTable(table: string): (r: seq<Order>)
      reads this
      ensures forall o :: o in r <==> o in AllOrders() && o.table == Some(table)
      ensures Subsequence(r, AllOrders())
    {
      FilterSubsequence(AllOrders(), AtTable(table));
      Filter(AllOrders(), AtTable(table))
    }

    // ------------------------------------------------------------ dishes

    function AllDishes(): seq<Dish>
      reads this
    {
      dishes.GetOr([])
    }

    /** `getDishById(id)` */
    function DishById(id: int): (r: Option<Dish>)
      reads this
      ensures r.Some? <==> exists i :: 0 <= i < |AllDishes()| && AllDishes()[i].id == id
      ensures r.Some? ==> r.value in AllDishes() && r.value.id == id
    {
      Find(AllDishes(), HasDishId(id))
    }

    /** `addDish(draft)` at instant `now` */
    method AddDish(draft: DishDraft, now: Instant) returns (r: Dish)
      modifies this
      ensures r == NewDish(draft, now)
      ensures dishes == Some(old(AllDishes()) + [r])
      ensures DishById(r.id).Some?
      ensures orders == old(orders) && favorites == old(favorites) && categories == old(categories) && settings == old(settings)
    {
      r := NewDish(draft, now);
      dishes := Some(AllDishes() + [r]);
      assert AllDishes()[|AllDishes()| - 1] == r;
    }

    /** `updateDish(id, patch)` */
    method UpdateDish(id: int, patch: DishPatch) returns (r: Option<Dish>)
      modifies this
      ensures match FindIndex(old(AllDishes()), HasDishId(id))
        case None => r.None? && dishes == old(dishes)
        case Some(k) => r == Some(MergeDish(old(AllDishes())[k], patch))
                        && dishes == Some(old(AllDishes())[k := r.value])
      ensures |AllDishes()| == |old(AllDishes())|
      ensures orders == old(orders) && favorites == old(favorites) && categories == old(categories) && settings == old(settings)
    {
      var ds := AllDishes();
      var k := FindIndex(ds, HasDishId(id));
      if k.None? {
        return None;
      }
      var updated := MergeDish(ds[k.value], patch);
      dishes := Some(ds[k.value := updated]);
      r := Some(updated);
    }

    /** `deleteDish(id)` */
    method DeleteDish(id: int) returns (r: bool)
      modifies this
      ensures r
      ensures dishes == Some(Filter(old(AllDishes()), LacksDishId(id)))
      ensures forall d :: d in AllDishes() <==> d in old(AllDishes()) && d.id != id
      ensures DishById(id).None?
      ensures old(DishById(id)).None? ==> AllDishes() == old(AllDishes())
      ensures orders == old(orders) && favorites == old(favorites) && categories == old(categories) && settings == old(settings)
    {
      FilterKeepsAll(AllDishes(), LacksDishId(id));
      dishes := Some(Filter(AllDishes(), LacksDishId(id)));
      r := true;
    }

    /** `getDishesByCategory(category)` */
    function DishesByCategory(category: string): (r: seq<Dish>)
      reads this
      ensures forall d :: d in r <==> d in AllDishes() && d.category == category
      ensures Subsequence(r, AllDishes())
    {
      FilterSubsequence(AllDishes(), InCategory(category));
      Filter(AllDishes(), InCategory(category))
    }

    /** `searchDishes(query)` */
    function SearchDishes(query: string): (r: seq<Dish>)
      reads this
      ensures forall d :: d in r <==>
        d in AllDishes() && (Contains(Lower(d.name), Lower(query)) || Contains(Lower(d.category), Lower(query)))
      ensures Subsequence(r, AllDishes())
    {
      FilterSubsequence(AllDishes(), DishMatches(query));
      Filter(AllDishes(), DishMatches(query))
    }

    // ------------------------------------------------------------ categories

    function AllCategories(): seq<string>
      reads this
    {
      categories.GetOr([])
    }

    /** `addCategory(name)`: appends the name unless present; returns the list either way. */
    method AddCategory(name: string) returns (r: seq<string>)
      modifies this
      ensures name in old(AllCategories()) ==> categories == old(categories) && r == old(AllCategories())
      ensures name !in old(AllCategories()) ==> categories == Some(old(AllCategories()) + [name]) && r == AllCategories()
      ensures name in r
      ensures NoDuplicates(old(AllCategories())) ==> NoDuplicates(r)
      ensures orders == old(orders) && favorites == old(favorites) && dishes == old(dishes) && settings == old(settings)
    {
      r := AllCategories();
      if name !in r {
        r := r + [name];
        categories := Some(r);
      }
    }

    /** `deleteCategory(name)`: removes every copy of the name; returns the new list. */
    method DeleteCategory(name: string) returns (r: seq<string>)
      modifies this
      ensures r == Filter(old(AllCategories()), IsNot(name)) && categories == Some(r)
      ensures forall c :: c in r <==> c in old(AllCategories()) && c != name
      ensures orders == old(orders) && favorites == old(favorites) && dishes == old(dishes) && settings == old(settings)
    {
      r := Filter(AllCategories(), IsNot(name));
      categories := Some(r);
    }

    // ------------------------------------------------------------ favourites

    function AllFavorites(): seq<Favorite>
      reads this
    {
      favorites.GetOr([])
    }

    /** `isFavorite(id)` */
    predicate IsFavorite(id: int)
      reads this
    {
      exists i :: 0 <= i < |AllFavorites()| && AllFavorites()[i].dish.id == id
    }

    /** `addToFavorites(dish)` at instant `now`: None when a favourite with that id exists. */
    method AddToFavorites(dish: Dish, now: Instant) returns (r: Option<Favorite>)
      modifies this
      ensures old(IsFavorite(dish.id)) ==> r.None? && favorites == old(favorites)
      ensures !old(IsFavorite(dish.id)) ==> r == Some(Favorite(dish, now)) && favorites == Some(old(AllFavorites()) + [r.value])
      ensures IsFavorite(dish.id)
      ensures UniqueFavoriteIds(old(AllFavorites())) ==> UniqueFavoriteIds(AllFavorites())
      ensures orders == old(orders) && dishes == old(dishes) && categories == old(categories) && settings == old(settings)
    {
      var favs := AllFavorites();
      var k := FindIndex(favs, HasFavoriteId(dish.id));
      if k.Some? {
        return None;
      }
      var item := Favorite(dish, now);
      favorites := Some(favs + [item]);
      assert AllFavorites()[|favs|] == item;
      r := Some(item);
    }

    /** `removeFromFavorites(id)` */
    method RemoveFromFavorites(id: int) returns (r: bool)
      modifies this
      ensures r
      ensures favorites == Some(Filter(old(AllFavorites()), LacksFavoriteId(id)))
      ensures !IsFavorite(id)
      ensures forall i :: i != id ==> (IsFavorite(i) <==> old(IsFavorite(i)))
      ensures orders == old(orders) && dishes == old(dishes) && categories == old(categories) && settings == old(settings)
    {
      ghost var before := AllFavorites();
      favorites := Some(Filter(AllFavorites(), LacksFavoriteId(id)));
      forall k | 0 <= k < |AllFavorites()| ensures AllFavorites()[k].dish.id != id {
        assert AllFavorites()[k] in AllFavorites();
      }
      forall i | i != id ensures IsFavorite(i) <==> exists k :: 0 <= k < |before| && before[k].dish.id == i {
        if IsFavorite(i) {
          var k :| 0 <= k < |AllFavorites()| && AllFavorites()[k].dish.id == i;
          assert AllFavorites()[k] in before;
        }
        if exists k :: 0 <= k < |before| && before[k].dish.id == i {
          var k :| 0 <= k < |before| && before[k].dish.id == i;
          assert before[k] in AllFavorites();
        }
      }
      r := true;
    }

    // ------------------------------------------------------------ settings

    function GetSettings(): Settings
      reads this
    {
      settings.GetOr(map[])
    }

    /** `updateSettings(patch)`: `{...current, ...patch}`, stored and returned. */
    method UpdateSettings(patch: Settings) returns (r: Settings)
      modifies this
      ensures settings == Some(r)
      ensures forall k :: k in r <==> k in old(GetSettings()) || k in patch
      ensures forall k :: k in patch ==> r[k] == patch[k]
      ensures forall k :: k in old(GetSettings()) && k !in patch ==> r[k] == old(GetSettings())[k]
      ensures orders == old(orders) && favorites == old(favorites) && dishes == old(dishes) && categories == old(categories)
    {
      r := GetSettings() + patch;
      settings := Some(r);
    }

    // ------------------------------------------------------------ analytics

    /** `getOrderStatistics()` */
    function GetOrderStatistics(): (r: Statistics)
      reads this
      ensures r.totalOrders == |AllOrders()| && r.completedOrders + r.pendingOrders == r.totalOrders
      ensures r.totalRevenue == CartRevenue(AllLines(AllOrders()))
      ensures r.completionRate == CompletionRate(r.completedOrders, r.totalOrders)
    {
      RevenueIsAllLines(AllOrders());
      OrderStatistics(AllOrders())
    }

    /** `getPopularDishes(limit)`: tallies `qty` per dish name over every stored cart,
        then ranks and truncates. */
    method GetPopularDishes(limit: int) returns (r: seq<PopularDish>)
      ensures r == PopularDishes(AllOrders(), limit)
    {
      var os := AllOrders();
      var keys, counts := TallyOrders(os);
      TalliedEntries(keys, counts, AllLines(os));
      var entries := seq(|keys|, k requires 0 <= k < |keys| && keys[k] in counts => PopularDish(keys[k], counts[keys[k]]));
      r := SliceTo(SortByCount(entries), limit);
    }

    /** `getPopularDishes()`: the default limit keeps at most ten entries. */
    method GetPopularDishesDefault() returns (r: seq<PopularDish>)
      ensures r == PopularDishes(AllOrders(), DefaultPopularLimit)
      ensures |r| <= 10
    {
      r := GetPopularDishes(DefaultPopularLimit);
    }

    /** `getRevenueByDate(days)` with today's day number given: one bucket per day of the
        window, each the total of the orders dated that day; None where the source throws
        on an order with neither `createdAt` nor `time`. */
    method GetRevenueByDate(days: int, today: int) returns (r: Option<map<int, int>>)
      ensures r == RevenueByDate(AllOrders(), days, today)
    {
      var os := AllOrders();
      var buckets: map<int, int> := map[];
      var i := 0;
      while i < days
        invariant 0 <= i && (days >= 0 ==> i <= days) && (days < 0 ==> i == 0)
        invariant buckets == ZeroBuckets(i, today)
      {
        ZeroBucketsStep(i, today);
        buckets := buckets[today - i := 0];
        i := i + 1;
      }
      WindowSize(days, today);
      assert Window(i, today) == Window(days, today);
      var j := 0;
      while j < |os|
        invariant 0 <= j <= |os|
        invariant AllDated(os[..j])
        invariant buckets == Buckets(os[..j], days, today)
      {
        var day := OrderDate(os[j]);
        if day.None? {
          assert !AllDated(os);
          return None;
        }
        RevenueBucketsStep(os, j, days, today, buckets);
        if day.value in buckets {
          buckets := buckets[day.value := buckets[day.value] + OrderTotal(os[j])];
        }
        j := j + 1;
      }
      assert os[..|os|] == os;
      r := Some(buckets);
    }

    /** `getRevenueByDate()`: the default window holds one bucket for each of the last seven days. */
    method GetRevenueByDateDefault(today: int) returns (r: Option<map<int, int>>)
      ensures r == RevenueByDate(AllOrders(), DefaultRevenueDays, today)
      ensures r.Some? ==> r.value.Keys == Window(7, today) && |r.value.Keys| == 7
    {
      r := GetRevenueByDate(DefaultRevenueDays, today);
      BucketsKeys(AllOrders(), DefaultRevenueDays, today);
    }

    // ------------------------------------------------------------ export, import, backup

    /** `exportData()` at instant `now` */
    function ExportData(now: Instant): (r: Snapshot)
      reads this
      ensures r.orders == Some(AllOrders()) && r.dishes == Some(AllDishes()) && r.categories == Some(AllCategories())
      ensures r.favorites == Some(AllFavorites()) && r.settings == Some(GetSettings()) && r.exportDate == Some(now)
    {
      Snapshot(Some(AllOrders()), Some(AllDishes()), Some(AllCategories()), Some(AllFavorites()), Some(GetSettings()), Some(now))
    }

    /** `importData(data)`: writes every key the snapshot carries; a missing snapshot throws
        inside the `try`, which answers false and writes nothing. */
    method ImportData(data: Option<Snapshot>) returns (ok: bool)
      modifies this
      ensures ok <==> data.Some?
      ensures data.None? ==> orders == old(orders) && dishes == old(dishes) && categories == old(categories)
                              && favorites == old(favorites) && settings == old(settings)
      ensures data.Some? ==> orders == Import(data.value.orders, old(orders)) && dishes == Import(data.value.dishes, old(dishes))
                              && categories == Import(data.value.categories, old(categories))
                              && favorites == Import(data.value.favorites, old(favorites))
                              && settings == Import(data.value.settings, old(settings))
    {
      if data.None? {
        return false;
      }
      var d := data.value;
      if d.orders.Some? { orders := d.orders; }
      if d.dishes.Some? { dishes := d.dishes; }
      if d.categories.Some? { categories := d.categories; }
      if d.favorites.Some? { favorites := d.favorites; }
      if d.settings.Some? { settings := d.settings; }
      ok := true;
    }

    /** `clearAllData()`: removes every key, then seeds the defaults again. */
    method ClearAllData()
      modifies this
      ensures IsFresh()
    {
      orders, dishes, categories, favorites, settings := None, None, None, None, None;
      InitializeData();
    }

    /** `createBackup()` at instant `now` */
    function CreateBackup(now: Instant): (r: Backup)
      reads this
      ensures r.data == Some(ExportData(now)) && r.timestamp == now && r.version == BackupVersion
    {
      Backup(Some(ExportData(now)), now, BackupVersion)
    }

    /** `restoreBackup(backup)`: imports the backup's data when both are there. */
    method RestoreBackup(backup: Option<Backup>) returns (ok: bool)
      modifies this
      ensures ok <==> backup.Some? && backup.value.data.Some?
      ensures !ok ==> orders == old(orders) && dishes == old(dishes) && categories == old(categories)
                      && favorites == old(favorites) && settings == old(settings)
      ensures ok ==> var d := backup.value.data.value;
                     orders == Import(d.orders, old(orders)) && dishes == Import(d.dishes, old(dishes))
                     && categories == Import(d.categories, old(categories))
                     && favorites == Import(d.favorites, old(favorites)) && settings == Import(d.settings, old(settings))
    {
      if backup.Some? && backup.value.data.Some? {
        ok := ImportData(backup.value.data);
      } else {
        ok := false;
      }
    }

    /** Round trip: restoring a backup of the current store reports success, leaves every
        getter's answer unchanged and leaves every key stored. */
    method RestoreOwnBackup(now: Instant) returns (ok: bool)
      modifies this
      ensures ok && Initialized()
      ensures AllOrders() == old(AllOrders()) && AllDishes() == old(AllDishes()) && AllCategories() == old(AllCategories())
      ensures AllFavorites() == old(AllFavorites()) && GetSettings() == old(GetSettings())
    {
      var backup := CreateBackup(now);
      ok := RestoreBackup(Some(backup));
    }
  }
}
