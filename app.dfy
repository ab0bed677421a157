/** The React shell src/App.js: cart, favourites and customer details as
    immutable state, each handler a function from the previous state to the
    next, and `placeOrder` as one transition whose remote call is an input. */
module App {
  import opened Wrappers
  import opened Seqs

  /** A menu dish as the React pages pass it around. */
  datatype MenuDish = MenuDish(id: int, name: string, price: int, image: string, category: string, description: string)

  /** A cart line: `{...dish, quantity}`. */
  datatype CartItem = CartItem(dish: MenuDish, quantity: int)

  datatype CustomerInfo = CustomerInfo(name: string, table: string)

  /** `newOrder` of `placeOrder`. */
  datatype AppOrder = AppOrder(id: int, customer: string, table: string, time: int, cart: seq<CartItem>, total: int)

  datatype AppState = AppState(cart: seq<CartItem>, favorites: seq<MenuDish>, customerInfo: CustomerInfo, orders: seq<AppOrder>)

  /** What `apiService.placeOrder` yields: success with an id, or anything else (a false
      `success` or a rejection), which both land in the `catch` fallback. */
  datatype ApiResponse = ApiSuccess(orderId: int) | ApiFailure

  datatype PlaceOutcome = MissingDetails | EmptyCart | Placed(order: AppOrder)

  /** The initial state of `AppContent`. */
  const InitialState: AppState := AppState([], [], CustomerInfo("", ""), [])

  /** Cart lines have distinct ids and quantities of at least 1. */
  predicate WellFormedCart(cart: seq<CartItem>) {
    && (forall i, j :: 0 <= i < j < |cart| ==> cart[i].dish.id != cart[j].dish.id)
    && (forall i :: 0 <= i < |cart| ==> cart[i].quantity >= 1)
  }

  predicate InCart(cart: seq<CartItem>, id: int) {
    exists i :: 0 <= i < |cart| && cart[i].dish.id == id
  }

  /** The total quantity held under `id`. */
  function QuantityOf(cart: seq<CartItem>, id: int): int {
    if cart == [] then 0
    else (if cart[0].dish.id == id then cart[0].quantity else 0) + QuantityOf(cart[1..], id)
  }

  function ItemAmount(item: CartItem): int {
    item.dish.price * item.quantity
  }

  /** `cart.reduce((sum, item) => sum + item.price * item.quantity, 0)` */
  function CartTotal(cart: seq<CartItem>): int {
    Sum(cart, ItemAmount)
  }

  /** `prevCart.map(item => item.id === id ? {...item, quantity: item.quantity + 1} : item)` */
  function BumpQuantity(cart: seq<CartItem>, id: int): (r: seq<CartItem>)
    ensures |r| == |cart|
    ensures forall i :: 0 <= i < |cart| ==>
      r[i] == (if cart[i].dish.id == id then cart[i].(quantity := cart[i].quantity + 1) else cart[i])
  {
    if cart == [] then []
    else [if cart[0].dish.id == id then cart[0].(quantity := cart[0].quantity + 1) else cart[0]]
         + BumpQuantity(cart[1..], id)
  }

  /** `prevCart.map(item => item.id === id ? {...item, quantity} : item)` */
  function SetQuantity(cart: seq<CartItem>, id: int, quantity: int): (r: seq<CartItem>)
    ensures |r| == |cart|
    ensures forall i :: 0 <= i < |cart| ==>
      r[i] == (if cart[i].dish.id == id then cart[i].(quantity := quantity) else cart[i])
  {
    if cart == [] then []
    else [if cart[0].dish.id == id then cart[0].(quantity := quantity) else cart[0]]
         + SetQuantity(cart[1..], id, quantity)
  }

  function LacksItemId(id: int): CartItem -> bool {
    (item: CartItem) => item.dish.id != id
  }

  /** `addToCart(dish)` */
  function AddToCart(cart: seq<CartItem>, dish: MenuDish): (r: seq<CartItem>)
    ensures InCart(cart, dish.id) ==> r == BumpQuantity(cart, dish.id) && |r| == |cart|
    ensures !InCart(cart, dish.id) ==> r == cart + [CartItem(dish, 1)]
    ensures InCart(r, dish.id)
  {
    if InCart(cart, dish.id) then
      var i :| 0 <= i < |cart| && cart[i].dish.id == dish.id;
      assert BumpQuantity(cart, dish.id)[i].dish.id == dish.id;
      BumpQuantity(cart, dish.id)
    else
      assert (cart + [CartItem(dish, 1)])[|cart|].dish.id == dish.id;
      cart + [CartItem(dish, 1)]
  }

  /** `removeFromCart(id)` */
  function RemoveFromCart(cart: seq<CartItem>, id: int): (r: seq<CartItem>)
    ensures forall item :: item in r <==> item in cart && item.dish.id != id
    ensures Subsequence(r, cart)
    ensures !InCart(r, id)
  {
    FilterSubsequence(cart, LacksItemId(id));
    var r := Filter(cart, LacksItemId(id));
    assert forall i :: 0 <= i < |r| ==> r[i] in r;
    r
  }

  /** `updateCartItemQuantity(id, quantity)` */
  function UpdateCartItemQuantity(cart: seq<CartItem>, id: int, quantity: int): (r: seq<CartItem>)
    ensures quantity <= 0 ==> r == RemoveFromCart(cart, id)
    ensures quantity > 0 ==> |r| == |cart| && forall i :: 0 <= i < |cart| ==>
      r[i] == (if cart[i].dish.id == id then cart[i].(quantity := quantity) else cart[i])
  {
    if quantity <= 0 then RemoveFromCart(cart, id) else SetQuantity(cart, id, quantity)
  }

  /** What is held under `id` in the first line, then in the rest. */
  lemma QuantityOfAbsent(cart: seq<CartItem>, id: int)
    requires !InCart(cart, id)
    ensures QuantityOf(cart, id) == 0
  {
    if cart != [] {
      assert !InCart(cart[1..], id) by {
        forall i | 0 <= i < |cart[1..]| ensures cart[1..][i].dish.id != id {
          assert cart[1..][i] == cart[i + 1];
        }
      }
      QuantityOfAbsent(cart[1..], id);
    }
  }

  lemma QuantityOfAppend(cart: seq<CartItem>, item: CartItem, id: int)
    ensures QuantityOf(cart + [item], id) == QuantityOf(cart, id) + (if item.dish.id == id then item.quantity else 0)
  {
    if cart == [] {
      assert [item][1..] == [];
    } else {
      assert (cart + [item])[1..] == cart[1..] + [item];
      QuantityOfAppend(cart[1..], item, id);
    }
  }

  lemma {:induction false} WellFormedTail(cart: seq<CartItem>)
    requires WellFormedCart(cart) && cart != []
    ensures WellFormedCart(cart[1..]) && !InCart(cart[1..], cart[0].dish.id)
  {
    forall i | 0 <= i < |cart[1..]| ensures cart[1..][i].dish.id != cart[0].dish.id {
      assert cart[1..][i] == cart[i + 1];
    }
  }

  lemma {:induction false} BumpQuantityOf(cart: seq<CartItem>, id: int, other: int)
    requires WellFormedCart(cart)
    ensures QuantityOf(BumpQuantity(cart, id), other)
            == QuantityOf(cart, other) + (if other == id && InCart(cart, id) then 1 else 0)
  {
    if cart != [] {
      WellFormedTail(cart);
      BumpQuantityOf(cart[1..], id, other);
      assert BumpQuantity(cart, id)[1..] == BumpQuantity(cart[1..], id);
      if cart[0].dish.id == id && other == id {
        assert !InCart(cart[1..], id);
      }
      if cart[0].dish.id != id {
        assert InCart(cart, id) <==> InCart(cart[1..], id) by {
          if InCart(cart, id) {
            var i :| 0 <= i < |cart| && cart[i].dish.id == id;
            assert cart[1..][i - 1] == cart[i];
          }
          if InCart(cart[1..], id) {
            var i :| 0 <= i < |cart[1..]| && cart[1..][i].dish.id == id;
            assert cart[i + 1] == cart[1..][i];
          }
        }
      }
    }
  }

  /** `addToCart` keeps the cart well formed, adds exactly one to the dish's quantity and
      leaves every other dish's quantity as it was. */
  lemma AddToCartSpec(cart: seq<CartItem>, dish: MenuDish, other: int)
    requires WellFormedCart(cart)
    ensures WellFormedCart(AddToCart(cart, dish))
    ensures QuantityOf(AddToCart(cart, dish), dish.id) == QuantityOf(cart, dish.id) + 1
    ensures other != dish.id ==> QuantityOf(AddToCart(cart, dish), other) == QuantityOf(cart, other)
  {
    var r := AddToCart(cart, dish);
    if InCart(cart, dish.id) {
      BumpQuantityOf(cart, dish.id, dish.id);
      BumpQuantityOf(cart, dish.id, other);
    } else {
      QuantityOfAppend(cart, CartItem(dish, 1), dish.id);
      QuantityOfAppend(cart, CartItem(dish, 1), other);
      forall i, j | 0 <= i < j < |r| ensures r[i].dish.id != r[j].dish.id {
        if j == |cart| { assert r[i] == cart[i]; }
      }
    }
  }

  /** `updateCartItemQuantity` keeps the cart well formed. */
  lemma UpdateQuantityWellFormed(cart: seq<CartItem>, id: int, quantity: int)
    requires WellFormedCart(cart)
    ensures WellFormedCart(UpdateCartItemQuantity(cart, id, quantity))
  {
    if quantity <= 0 {
      var r := RemoveFromCart(cart, id);
      FilterSubsequence(cart, LacksItemId(id));
      SubsequenceWellFormed(r, cart);
    }
  }

  lemma {:induction false} SubsequenceWellFormed(a: seq<CartItem>, b: seq<CartItem>)
    requires Subsequence(a, b) && WellFormedCart(b)
    ensures WellFormedCart(a)
  {
    if a != [] && b != [] {
      WellFormedTail(b);
      if Subsequence(a, b[1..]) {
        SubsequenceWellFormed(a, b[1..]);
      } else {
        SubsequenceWellFormed(a[1..], b[1..]);
        SubsequenceElements(a[1..], b[1..]);
        assert a[0] == b[0];
        forall j | 1 <= j < |a| ensures a[0].dish.id != a[j].dish.id {
          assert a[1..][j - 1] == a[j];
          assert a[j] in b[1..];
        }
      }
    }
  }

  function HasDishId(id: int): MenuDish -> bool {
    (d: MenuDish) => d.id == id
  }

  function LacksDishId(id: int): MenuDish -> bool {
    (d: MenuDish) => d.id != id
  }

  predicate IsFavorite(favorites: seq<MenuDish>, id: int) {
    exists i :: 0 <= i < |favorites| && favorites[i].id == id
  }

  /** `addToFavorites(dish)`: removes every favourite with the dish's id, or appends the dish. */
  function ToggleFavorite(favorites: seq<MenuDish>, dish: MenuDish): (r: seq<MenuDish>)
    ensures IsFavorite(favorites, dish.id) ==> r == Filter(favorites, LacksDishId(dish.id))
    ensures !IsFavorite(favorites, dish.id) ==> r == favorites + [dish]
  {
    if IsFavorite(favorites, dish.id) then Filter(favorites, LacksDishId(dish.id)) else favorites + [dish]
  }

  /** The toggle flips membership of the dish's id and touches no other id. */
  lemma ToggleFavoriteFlips(favorites: seq<MenuDish>, dish: MenuDish, other: int)
    ensures IsFavorite(ToggleFavorite(favorites, dish), dish.id) <==> !IsFavorite(favorites, dish.id)
    ensures other != dish.id ==> (IsFavorite(ToggleFavorite(favorites, dish), other) <==> IsFavorite(favorites, other))
  {
    var r := ToggleFavorite(favorites, dish);
    if IsFavorite(favorites, dish.id) {
      forall i | 0 <= i < |r| ensures r[i].id != dish.id {
        assert r[i] in r;
      }
      if other != dish.id {
        if IsFavorite(favorites, other) {
          var i :| 0 <= i < |favorites| && favorites[i].id == other;
          assert favorites[i] in r;
          var k :| 0 <= k < |r| && r[k] == favorites[i];
        }
        if IsFavorite(r, other) {
          var k :| 0 <= k < |r| && r[k].id == other;
          assert r[k] in favorites;
        }
      }
    } else {
      assert r[|favorites|] == dish;
      if other != dish.id && IsFavorite(r, other) {
        var k :| 0 <= k < |r| && r[k].id == other;
        assert k < |favorites| && r[k] == favorites[k];
      }
      if IsFavorite(favorites, other) {
        var k :| 0 <= k < |favorites| && favorites[k].id == other;
        assert r[k] == favorites[k];
      }
    }
  }

  /** Toggling twice restores the list when the dish was not a favourite; when it was, the
      copies with its id end up replaced by the one dish at the end. */
  lemma ToggleFavoriteTwice(favorites: seq<MenuDish>, dish: MenuDish)
    ensures !IsFavorite(favorites, dish.id) ==> ToggleFavorite(ToggleFavorite(favorites, dish), dish) == favorites
    ensures IsFavorite(favorites, dish.id) ==>
      ToggleFavorite(ToggleFavorite(favorites, dish), dish) == Filter(favorites, LacksDishId(dish.id)) + [dish]
  {
    ToggleFavoriteFlips(favorites, dish, dish.id);
    if !IsFavorite(favorites, dish.id) {
      var once := favorites + [dish];
      assert Filter(once, LacksDishId(dish.id)) == favorites by {
        FilterSnocDrop(favorites, dish, LacksDishId(dish.id));
        FilterKeepsAll(favorites, LacksDishId(dish.id));
      }
    }
  }

  lemma {:induction false} FilterSnocDrop(s: seq<MenuDish>, x: MenuDish, p: MenuDish -> bool)
    requires !p(x)
    ensures Filter(s + [x], p) == Filter(s, p)
  {
    if s == [] {
      assert [x][1..] == [];
    } else {
      assert (s + [x])[1..] == s[1..] + [x];
      FilterSnocDrop(s[1..], x, p);
    }
  }

  /** `setCustomerName(name)` */
  function SetCustomerName(info: CustomerInfo, name: string): (r: CustomerInfo)
    ensures r.name == name && r.table == info.table
  {
    info.(name := name)
  }

  /** `setTableNo(tableNo)` */
  function SetTableNo(info: CustomerInfo, tableNo: string): (r: CustomerInfo)
    ensures r.table == tableNo && r.name == info.name
  {
    info.(table := tableNo)
  }

  /** `clearCart()` */
  function ClearCart(s: AppState): (r: AppState)
    ensures r.cart == [] && r.favorites == s.favorites && r.customerInfo == s.customerInfo && r.orders == s.orders
  {
    s.(cart := [])
  }

  /** `placeOrder()` at instant `now` with the remote call's answer: no change without a name
      and table (checked first) or with an empty cart; otherwise, on either path, one order
      in front of the list and an empty cart. */
  function PlaceOrder(s: AppState, response: ApiResponse, now: int): (r: (PlaceOutcome, AppState))
    ensures s.customerInfo.name == [] || s.customerInfo.table == [] ==> r == (MissingDetails, s)
    ensures s.customerInfo.name != [] && s.customerInfo.table != [] && s.cart == [] ==> r == (EmptyCart, s)
    ensures r.0.Placed? <==> s.customerInfo.name != [] && s.customerInfo.table != [] && s.cart != []
    ensures r.0.Placed? ==>
      var o := r.0.order;
      && r.1 == s.(orders := [o] + s.orders, cart := [])
      && o.cart == s.cart && o.total == CartTotal(s.cart)
      && o.customer == s.customerInfo.name && o.table == s.customerInfo.table && o.time == now
      && o.id == (if response.ApiSuccess? then response.orderId else now)
    ensures |r.1.orders| == |s.orders| + (if r.0.Placed? then 1 else 0)
    ensures r.1.orders[|r.1.orders| - |s.orders|..] == s.orders
  {
    if s.customerInfo.name == [] || s.customerInfo.table == [] then (MissingDetails, s)
    else if s.cart == [] then (EmptyCart, s)
    else
      var id := if response.ApiSuccess? then response.orderId else now;
      var order := AppOrder(id, s.customerInfo.name, s.customerInfo.table, now, s.cart, CartTotal(s.cart));
      var next := ClearCart(s.(orders := [order] + s.orders));
      assert next.orders[1..] == s.orders;
      (Placed(order), next)
  }
}
