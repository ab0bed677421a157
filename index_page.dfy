/** The menu page script index.js: a page-level cart keyed by dish name, the
    dish filter, order placement through the store, the printed receipt's
    arithmetic and the favourite button. Values read from the page's input
    fields, the clock and `Math.random` are parameters. */
module IndexPage {
  import opened Wrappers
  import opened Seqs
  import opened Text
  import opened StorageData
  import opened StorageService

  /** What `addToCart` ends with: an alert for a blank name or table, or one of the two popups. */
  datatype AddOutcome = NameMissing | TableMissing | Increased(qty: int) | Added

  datatype PrintedReceipt = PrintedReceipt(
    orderId: string, customer: string, table: string, lines: seq<QtyLine>,
    subtotal: int, gst: real, grandTotal: real)

  function HasLineName(name: string): QtyLine -> bool {
    (l: QtyLine) => l.dish.name == name
  }

  /** The cart invariant `addToCart` keeps: one line per dish name, every `qty` at least 1. */
  predicate WellFormedCart(cart: seq<QtyLine>) {
    && (forall i, j :: 0 <= i < j < |cart| ==> cart[i].dish.name != cart[j].dish.name)
    && (forall i :: 0 <= i < |cart| ==> cart[i].qty >= 1)
  }

  /** The cart after one `addToCart` of `dish` past the checks: `existing.qty++` on the
      line with the same name, else `cart.push({...dish, qty: 1})`. */
  function CartWith(cart: seq<QtyLine>, dish: Dish): seq<QtyLine> {
    match FindIndex(cart, HasLineName(dish.name))
    case Some(k) => cart[k := cart[k].(qty := cart[k].qty + 1)]
    case None => cart + [QtyLine(dish, 1)]
  }

  /** Adding a dish bumps the line with its name, or appends a line with `qty` 1 when there is none;
      nothing else changes. */
  lemma CartWithSpec(cart: seq<QtyLine>, dish: Dish)
    ensures (exists i :: 0 <= i < |cart| && cart[i].dish.name == dish.name) ==>
      exists k :: 0 <= k < |cart| && cart[k].dish.name == dish.name
        && (forall j :: 0 <= j < k ==> cart[j].dish.name != dish.name)
        && CartWith(cart, dish) == cart[k := cart[k].(qty := cart[k].qty + 1)]
    ensures (forall i :: 0 <= i < |cart| ==> cart[i].dish.name != dish.name) ==>
      CartWith(cart, dish) == cart + [QtyLine(dish, 1)]
    ensures WellFormedCart(cart) ==> WellFormedCart(CartWith(cart, dish))
  {
    if WellFormedCart(cart) {
      CartWithWellFormed(cart, dish);
    }
    match FindIndex(cart, HasLineName(dish.name))
    case Some(k) =>
      assert HasLineName(dish.name)(cart[k]);
      forall j | 0 <= j < k ensures cart[j].dish.name != dish.name {
        assert !HasLineName(dish.name)(cart[j]);
      }
      assert CartWith(cart, dish) == cart[k := cart[k].(qty := cart[k].qty + 1)];
    case None =>
      forall j | 0 <= j < |cart| ensures cart[j].dish.name != dish.name {
        assert !HasLineName(dish.name)(cart[j]);
      }
  }

  /** Adding keeps one line per name and every `qty` at least 1. */
  lemma CartWithWellFormed(cart: seq<QtyLine>, dish: Dish)
    requires WellFormedCart(cart)
    ensures WellFormedCart(CartWith(cart, dish))
  {
    var r := CartWith(cart, dish);
    match FindIndex(cart, HasLineName(dish.name))
    case Some(k) =>
      assert |r| == |cart|;
      assert forall i :: 0 <= i < |r| ==> r[i].dish == cart[i].dish && r[i].qty >= cart[i].qty;
    case None =>
      assert r == cart + [QtyLine(dish, 1)];
      forall i, j | 0 <= i < j < |r| ensures r[i].dish.name != r[j].dish.name {
        if j == |cart| { assert r[i] == cart[i]; }
      }
  }

  /** Every add counts one more item. */
  lemma CartWithQuantity(cart: seq<QtyLine>, dish: Dish)
    ensures CartQuantity(CartWith(cart, dish)) == CartQuantity(cart) + 1
  {
    match FindIndex(cart, HasLineName(dish.name))
    case Some(k) =>
      SumUpdate(cart, k, cart[k].(qty := cart[k].qty + 1), LineQty);
    case None =>
      SumConcat(cart, [QtyLine(dish, 1)], LineQty);
      assert [QtyLine(dish, 1)][..0] == [];
  }

  /** The `loadDishes` filter: the lower-cased name contains the lower-cased term, and the
      category equals the selection unless the selection is empty. */
  function Shown(term: string, cat: string): Dish -> bool {
    (d: Dish) => Contains(Lower(d.name), Lower(term)) && (cat == "" || d.category == cat)
  }

  /** `{cart, customer: name || 'Anonymous', table: tableNo || 'Takeaway', time}` */
  function OrderDraft(cart: seq<QtyLine>, customerName: string, tableNo: string, now: Instant): (r: OrderPatch)
    ensures r.cart == Some(cart) && r.time == Some(now) && r.id.None?
    ensures r.customer.Some? && r.customer.value != [] && r.table.Some? && r.table.value != []
    ensures customerName != [] ==> r.customer == Some(customerName)
    ensures customerName == [] ==> r.customer == Some("Anonymous")
    ensures tableNo != [] ==> r.table == Some(tableNo)
    ensures tableNo == [] ==> r.table == Some("Takeaway")
  {
    OrderPatch(None, Some(OrElse(customerName, "Anonymous")), Some(OrElse(tableNo, "Takeaway")),
               Some(cart), Some(now), None, None, None)
  }

  /** `generateOrderId()`: "SG", the last six digits of the timestamp, then the random
      number padded to three digits. */
  function GenerateOrderId(timestamp: nat, random: nat): (r: string)
    requires random < 1000
    ensures |r| >= 6 && r[..2] == "SG"
  {
    var ts := NatToString(timestamp);
    var mid := TakeLast(ts, 6);
    var pad := PadStart(NatToString(random), 3, '0');
    assert |ts| >= 1 && |mid| >= 1 && |pad| >= 3;
    var r := "SG" + (mid + pad);
    assert r[..2] == "SG";
    r
  }

  /** A timestamp of at least six digits ends in six digits that denote it modulo 10^6. */
  lemma TimestampDigits(timestamp: nat)
    requires timestamp >= 100000
    ensures var mid := TakeLast(NatToString(timestamp), 6);
      |mid| == 6 && AllDigits(mid) && DigitsValue(mid) == timestamp % 1000000
  {
    var ts := NatToString(timestamp);
    assert Pow10(0) == 1 && Pow10(1) == 10 && Pow10(2) == 100 && Pow10(3) == 1000;
    assert Pow10(4) == 10000 && Pow10(5) == 100000 && Pow10(6) == 1000000;
    NatToStringLong(timestamp, 5);
    assert AllDigits(ts);
    LastDigitsValue(ts, 6);
    NatToStringRoundTrip(timestamp);
  }

  /** A number below 1000 padded to three characters is three digits that denote it. */
  lemma RandomDigits(random: nat)
    requires random < 1000
    ensures var pad := PadStart(NatToString(random), 3, '0');
      |pad| == 3 && AllDigits(pad) && DigitsValue(pad) == random
  {
    var rs := NatToString(random);
    assert Pow10(0) == 1 && Pow10(1) == 10 && Pow10(2) == 100 && Pow10(3) == 1000;
    NatToStringShort(random, 3);
    PadStartZeros(rs, 3);
    assert AllDigits(rs);
    LeadingZerosValue(3 - |rs|, rs);
    NatToStringRoundTrip(random);
  }

  /** For any timestamp of at least six digits the id has eleven characters: "SG", the
      timestamp modulo 10^6, then the random number. */
  lemma OrderIdDigits(timestamp: nat, random: nat)
    requires random < 1000 && timestamp >= 100000
    ensures var r := GenerateOrderId(timestamp, random);
      && |r| == 11
      && AllDigits(r[2..8]) && DigitsValue(r[2..8]) == timestamp % 1000000
      && AllDigits(r[8..]) && DigitsValue(r[8..]) == random
  {
    var mid := TakeLast(NatToString(timestamp), 6);
    var pad := PadStart(NatToString(random), 3, '0');
    TimestampDigits(timestamp);
    RandomDigits(random);
    var r := GenerateOrderId(timestamp, random);
    assert r == "SG" + mid + pad;
    assert r[2..8] == mid && r[8..] == pad;
  }

  /** The dish a list button at index `i` adds, as written: `dishes[i]` of the whole catalogue. */
  function ButtonDish(dishes: seq<Dish>, i: int): Option<Dish> {
    if 0 <= i < |dishes| then Some(dishes[i]) else None
  }

  /** The dish the button at index `i` shows: the `i`-th dish of the filtered list. */
  function ShownButtonDish(dishes: seq<Dish>, term: string, cat: string, i: int): (r: Option<Dish>)
    ensures r.Some? <==> 0 <= i < |Filter(dishes, Shown(term, cat))|
    ensures r.Some? ==> r.value in dishes && Contains(Lower(r.value.name), Lower(term))
                        && (cat == "" || r.value.category == cat)
  {
    var shown := Filter(dishes, Shown(term, cat));
    if 0 <= i < |shown| then
      assert shown[i] in shown;
      Some(shown[i])
    else None
  }

  /** With a category selected, the first button adds a dish that is not on the screen. */
  lemma ButtonIndexMismatch()
    ensures var dishes := [Dish(1, "Paneer Tikka", 250, "", "North Indian", None),
                           Dish(2, "Masala Dosa", 120, "", "South Indian", None)];
      && ButtonDish(dishes, 0).Some?
      && ButtonDish(dishes, 0).value !in Filter(dishes, Shown("", "South Indian"))
      && ShownButtonDish(dishes, "", "South Indian", 0) == Some(dishes[1])
  {
    var dishes := [Dish(1, "Paneer Tikka", 250, "", "North Indian", None),
                   Dish(2, "Masala Dosa", 120, "", "South Indian", None)];
    var p := Shown("", "South Indian");
    assert !p(dishes[0]);
    assert p(dishes[1]) by {
      assert StartsWith(Lower(dishes[1].name), Lower(""));
    }
    assert Filter(dishes, p) == [dishes[1]] by {
      assert dishes[1..] == [dishes[1]];
      assert [dishes[1]][1..] == [];
    }
  }

  /** Every button index the filtered list hands out is inside the catalogue, since the
      filtered list is no longer than the catalogue: `dishes[i]` always names a dish. */
  lemma ButtonIndexInCatalogue(dishes: seq<Dish>, term: string, cat: string, i: int)
    requires 0 <= i < |Filter(dishes, Shown(term, cat))|
    ensures ButtonDish(dishes, i).Some?
  {
  }

  class MenuPage {
    const store: LocalStorageService
    /** `let dishes = localStorageService.getAllDishes()`, read once when the script loads. */
    var dishes: seq<Dish>
    var cart: seq<QtyLine>
    var favorites: seq<Favorite>

    /** The script's start: the catalogue, an empty cart and the stored favourites. */
    constructor (store: LocalStorageService)
      ensures this.store == store && dishes == store.AllDishes() && cart == [] && favorites == store.AllFavorites()
      ensures WellFormedCart(cart)
    {
      this.store := store;
      dishes := store.AllDishes();
      cart := [];
      favorites := store.AllFavorites();
    }

    /** `loadDishes()` for the search term and category selection. */
    function ShownDishes(term: string, cat: string): (r: seq<Dish>)
      reads this
      ensures forall d :: d in r <==> d in dishes && Contains(Lower(d.name), Lower(term)) && (cat == "" || d.category == cat)
      ensures Subsequence(r, dishes)
    {
      FilterSubsequence(dishes, Shown(term, cat));
      Filter(dishes, Shown(term, cat))
    }

    /** The step of `addToCart` after the checks: adds `it` and reports the popup. */
    method AddLine(it: Dish) returns (outcome: AddOutcome)
      modifies this`cart
      ensures cart == CartWith(old(cart), it)
      ensures outcome.Added? || outcome.Increased?
      ensures outcome.Added? <==> |cart| == |old(cart)| + 1
      ensures outcome.Increased? ==> exists k :: 0 <= k < |cart| && cart[k].dish.name == it.name && cart[k].qty == outcome.qty
    {
      var k := FindIndex(cart, HasLineName(it.name));
      if k.Some? {
        var existing := cart[k.value];
        cart := cart[k.value := existing.(qty := existing.qty + 1)];
        outcome := Increased(existing.qty + 1);
        assert cart[k.value].dish.name == it.name;
      } else {
        cart := cart + [QtyLine(it, 1)];
        outcome := Added;
      }
    }

    /** `addToCart(i)` as written: the name, then the table, must be non-blank after `trim`;
        the dish is `dishes[i]` of the whole catalogue. The index is one a list button
        passes, which is always inside the catalogue (`ButtonIndexInCatalogue`). */
    method AddToCart(i: int, customerName: string, tableNo: string) returns (outcome: AddOutcome)
      requires 0 <= i < |dishes|
      modifies this`cart
      ensures Trim(customerName) == [] ==> outcome == NameMissing && cart == old(cart)
      ensures Trim(customerName) != [] && Trim(tableNo) == [] ==> outcome == TableMissing && cart == old(cart)
      ensures Trim(customerName) != [] && Trim(tableNo) != [] ==>
        cart == CartWith(old(cart), dishes[i]) && (outcome.Added? || outcome.Increased?)
      ensures WellFormedCart(old(cart)) ==> WellFormedCart(cart)
      ensures CartQuantity(cart) == CartQuantity(old(cart)) + (if outcome.Added? || outcome.Increased? then 1 else 0)
    {
      if Trim(customerName) == [] {
        return NameMissing;
      }
      if Trim(tableNo) == [] {
        return TableMissing;
      }
      CartWithSpec(cart, dishes[i]);
      CartWithQuantity(cart, dishes[i]);
      outcome := AddLine(dishes[i]);
    }

    /** `addToCart` with the button index read in the list the page shows. */
    method AddShownToCart(i: int, term: string, cat: string, customerName: string, tableNo: string)
      returns (outcome: AddOutcome)
      requires 0 <= i < |ShownDishes(term, cat)|
      modifies this`cart
      ensures Trim(customerName) == [] ==> outcome == NameMissing && cart == old(cart)
      ensures Trim(customerName) != [] && Trim(tableNo) == [] ==> outcome == TableMissing && cart == old(cart)
      ensures Trim(customerName) != [] && Trim(tableNo) != [] ==>
        var it := old(ShownDishes(term, cat))[i];
        cart == CartWith(old(cart), it) && (outcome.Added? || outcome.Increased?)
        && ShownButtonDish(dishes, term, cat, i) == Some(it) && it in ShownDishes(term, cat)
      ensures WellFormedCart(old(cart)) ==> WellFormedCart(cart)
    {
      if Trim(customerName) == [] {
        return NameMissing;
      }
      if Trim(tableNo) == [] {
        return TableMissing;
      }
      var it := ShownDishes(term, cat)[i];
      assert it in ShownDishes(term, cat);
      CartWithSpec(cart, it);
      outcome := AddLine(it);
    }

    /** The figures `updateCartUI` shows: the running `total += qty * price` and the item count. */
    method CartSummary() returns (total: int, count: int)
      ensures total == CartRevenue(cart)
      ensures count == CartQuantity(cart)
    {
      total := 0;
      var k := 0;
      while k < |cart|
        invariant 0 <= k <= |cart|
        invariant total == Sum(cart[..k], LineAmount)
      {
        assert cart[..k + 1][..k] == cart[..k];
        total := total + cart[k].qty * cart[k].dish.price;
        k := k + 1;
      }
      assert cart[..k] == cart;
      count := CartQuantity(cart);
    }

    /** `placeOrder()` at instant `now`: nothing on an empty cart; otherwise one `addOrder`
        with the current lines and the name and table defaults, then an empty cart. */
    method PlaceOrder(customerName: string, tableNo: string, now: Instant) returns (placed: Option<Order>)
      modifies this`cart, store
      ensures cart == []
      ensures old(cart) == [] ==> placed.None? && store.orders == old(store.orders)
      ensures old(cart) != [] ==>
        placed == Some(NewOrder(OrderDraft(old(cart), customerName, tableNo, now), now))
        && store.orders == Some(old(store.AllOrders()) + [placed.value])
      ensures placed.Some? ==> placed.value.cart == Some(old(cart)) && placed.value.status == Some("pending")
      ensures store.favorites == old(store.favorites) && store.dishes == old(store.dishes)
      ensures store.categories == old(store.categories) && store.settings == old(store.settings)
    {
      if cart == [] {
        return None;
      }
      var draft := OrderDraft(cart, customerName, tableNo, now);
      var order := store.AddOrder(draft, now);
      cart := [];
      placed := Some(order);
    }

    /** `printReceipt()`'s figures: nothing on an empty cart; otherwise the subtotal, 5% GST
        and the grand total `subtotal * 1.05`. */
    function PrintReceipt(customerName: string, tableNo: string, timestamp: nat, random: nat): (r: Option<PrintedReceipt>)
      requires random < 1000
      reads this
      ensures cart == [] <==> r.None?
      ensures r.Some? ==> r.value.lines == cart && r.value.subtotal == CartRevenue(cart)
      ensures r.Some? ==> r.value.gst == r.value.subtotal as real * GstRate
      ensures r.Some? ==> r.value.grandTotal == r.value.subtotal as real + r.value.gst
      ensures r.Some? ==> r.value.customer == OrElse(customerName, "Anonymous") && r.value.table == OrElse(tableNo, "Takeaway")
      ensures r.Some? ==> r.value.orderId == GenerateOrderId(timestamp, random)
    {
      if cart == [] then None
      else
        var total := CartRevenue(cart);
        Some(PrintedReceipt(GenerateOrderId(timestamp, random), OrElse(customerName, "Anonymous"),
                            OrElse(tableNo, "Takeaway"), cart, total, total as real * 0.05, total as real * 1.05))
    }

    /** The favourite step after the lookup: `addToFavorites(it)`, then re-read the list on success. */
    method FavoriteDish(it: Dish, now: Instant) returns (added: bool)
      modifies this`favorites, store
      ensures added <==> !old(store.IsFavorite(it.id))
      ensures store.IsFavorite(it.id)
      ensures added ==> store.favorites == Some(old(store.AllFavorites()) + [Favorite(it, now)]) && favorites == store.AllFavorites()
      ensures !added ==> store.favorites == old(store.favorites) && favorites == old(favorites)
      ensures store.orders == old(store.orders) && store.dishes == old(store.dishes)
      ensures store.categories == old(store.categories) && store.settings == old(store.settings)
    {
      var result := store.AddToFavorites(it, now);
      if result.Some? {
        favorites := store.AllFavorites();
      }
      added := result.Some?;
    }

    /** `addToFavorite(i)` as written: the dish is `dishes[i]` of the whole catalogue, at an
        index a list button passes (`ButtonIndexInCatalogue`). */
    method AddToFavorite(i: int, now: Instant) returns (added: bool)
      requires 0 <= i < |dishes|
      modifies this`favorites, store
      ensures added <==> !old(store.IsFavorite(dishes[i].id))
      ensures store.IsFavorite(dishes[i].id)
      ensures added ==> store.favorites == Some(old(store.AllFavorites()) + [Favorite(dishes[i], now)])
      ensures added ==> favorites == store.AllFavorites()
      ensures !added ==> store.favorites == old(store.favorites) && favorites == old(favorites)
      ensures store.orders == old(store.orders) && store.dishes == old(store.dishes)
      ensures store.categories == old(store.categories) && store.settings == old(store.settings)
    {
      added := FavoriteDish(dishes[i], now);
    }

    /** `addToFavorite` with the button index read in the list the page shows. */
    method AddShownToFavorite(i: int, term: string, cat: string, now: Instant) returns (added: bool)
      requires 0 <= i < |ShownDishes(term, cat)|
      modifies this`favorites, store
      ensures var it := ShownDishes(term, cat)[i];
        && ShownButtonDish(dishes, term, cat, i) == Some(it) && it in ShownDishes(term, cat)
        && (added <==> !old(store.IsFavorite(it.id))) && store.IsFavorite(it.id)
        && (added ==> store.favorites == Some(old(store.AllFavorites()) + [Favorite(it, now)]))
      ensures added ==> favorites == store.AllFavorites()
      ensures !added ==> store.favorites == old(store.favorites) && favorites == old(favorites)
      ensures store.orders == old(store.orders) && store.dishes == old(store.dishes)
      ensures store.categories == old(store.categories) && store.settings == old(store.settings)
    {
      var it := ShownDishes(term, cat)[i];
      assert it in ShownDishes(term, cat);
      added := FavoriteDish(it, now);
    }
  }
}
