/** The menu page backed by the dish service: turning service rows into menu
    dishes, the category and search filters, clearing them, and the
    favourite mark and cart count each dish card shows. */
module Home {
  import opened Wrappers
  import opened Seqs
  import opened Text
  import App

  /** A dish row as the service returns it; the last three columns may be missing. */
  datatype RawDish = RawDish(
    id: int, name: string, price: int,
    imgUrl: Option<string>, categoryId: Option<string>, description: Option<string>)

  /** `value || fallback` on an optional text column. */
  function ColumnOr(value: Option<string>, fallback: string): (r: string)
    ensures value.Some? && value.value != [] ==> r == value.value
    ensures value.None? || value.value == [] ==> r == fallback
  {
    OrElse(value.GetOr([]), fallback)
  }

  /** The row transform: `id`, `name` and `price` carried over, with defaults
      for a missing image, category and description. */
  function Transform(d: RawDish): (r: App.MenuDish)
    ensures r.id == d.id && r.name == d.name && r.price == d.price
    ensures r.image == ColumnOr(d.imgUrl, "/image/default-dish.jpg")
    ensures r.category == ColumnOr(d.categoryId, "other")
    ensures r.description == ColumnOr(d.description, "Delicious dish")
    ensures r.image != [] && r.category != [] && r.description != []
  {
    App.MenuDish(d.id, d.name, d.price,
      ColumnOr(d.imgUrl, "/image/default-dish.jpg"),
      ColumnOr(d.categoryId, "other"),
      ColumnOr(d.description, "Delicious dish"))
  }

  /** The three dishes loaded when the service cannot be reached; the page then
      renders only its error panel, so they are never shown. */
  const FallbackDishes: seq<App.MenuDish> := [
    App.MenuDish(1, "Butter Chicken", 250, "/image/Butter Chicken.jpg", "main", "Creamy and rich butter chicken"),
    App.MenuDish(2, "Biryani", 300, "/image/Biriyani.jpg", "main", "Aromatic rice dish with spices"),
    App.MenuDish(3, "Naan", 30, "/image/Naan.jpg", "bread", "Soft and fluffy bread")
  ]

  /** `fetchDishes`: the transformed rows, or the fallback dishes when the request fails (None). */
  function LoadDishes(data: Option<seq<RawDish>>): (r: seq<App.MenuDish>)
    ensures data.None? ==> r == FallbackDishes
    ensures data.Some? ==> |r| == |data.value| && forall i :: 0 <= i < |r| ==> r[i] == Transform(data.value[i])
  {
    match data
    case None => FallbackDishes
    case Some(rows) => seq(|rows|, i requires 0 <= i < |rows| => Transform(rows[i]))
  }

  /** Loading keeps the rows' ids in order, so dishes with distinct ids stay distinct. */
  lemma LoadKeepsIds(rows: seq<RawDish>)
    requires forall i, j :: 0 <= i < j < |rows| ==> rows[i].id != rows[j].id
    ensures forall i, j :: 0 <= i < j < |LoadDishes(Some(rows))| ==> LoadDishes(Some(rows))[i].id != LoadDishes(Some(rows))[j].id
  {
  }

  /** The lower-cased name or description contains the lower-cased term. */
  predicate TextMatches(term: string, d: App.MenuDish) {
    Contains(Lower(d.name), Lower(term)) || Contains(Lower(d.description), Lower(term))
  }

  /** A dish passes both filters: category 'all' and a blank search filter nothing. */
  predicate Shown(term: string, category: string, d: App.MenuDish) {
    (category == "all" || d.category == category) && (Trim(term) == [] || TextMatches(term, d))
  }

  function InCategory(category: string): App.MenuDish -> bool {
    (d: App.MenuDish) => d.category == category
  }

  function MatchesTerm(term: string): App.MenuDish -> bool {
    (d: App.MenuDish) => TextMatches(term, d)
  }

  function CategoryPass(category: string): App.MenuDish -> bool {
    (d: App.MenuDish) => category == "all" || d.category == category
  }

  function SearchPass(term: string): App.MenuDish -> bool {
    (d: App.MenuDish) => Trim(term) == [] || TextMatches(term, d)
  }

  function ShownBy(term: string, category: string): App.MenuDish -> bool {
    (d: App.MenuDish) => Shown(term, category, d)
  }

  /** The filter effect: the category filter unless 'all' is selected, then
      the search unless the term trims to nothing. */
  function FilteredDishes(dishes: seq<App.MenuDish>, term: string, category: string): seq<App.MenuDish> {
    var byCategory := if category != "all" then Filter(dishes, InCategory(category)) else dishes;
    if Trim(term) != [] then Filter(byCategory, MatchesTerm(term)) else byCategory
  }

  /** The two steps are one filter by their conjunction: the shown dishes are
      the subsequence of the dishes that pass both, in menu order. */
  lemma FilteredDishesIsFilter(dishes: seq<App.MenuDish>, term: string, category: string)
    ensures FilteredDishes(dishes, term, category) == Filter(dishes, ShownBy(term, category))
    ensures Subsequence(FilteredDishes(dishes, term, category), dishes)
  {
    var byCategory := Filter(dishes, CategoryPass(category));
    if category != "all" {
      FilterExt(dishes, CategoryPass(category), InCategory(category));
    } else {
      FilterKeepsAll(dishes, CategoryPass(category));
    }
    if Trim(term) != [] {
      FilterExt(byCategory, SearchPass(term), MatchesTerm(term));
    } else {
      FilterKeepsAll(byCategory, SearchPass(term));
    }
    FilterFilter(dishes, CategoryPass(category), SearchPass(term), ShownBy(term, category));
    FilterSubsequence(dishes, ShownBy(term, category));
  }

  /** Which dishes are shown, in the page's own terms. */
  lemma FilteredDishesMembers(dishes: seq<App.MenuDish>, term: string, category: string, d: App.MenuDish)
    ensures d in FilteredDishes(dishes, term, category) <==>
      d in dishes
      && (category != "all" ==> d.category == category)
      && (!IsBlank(term) ==> Contains(Lower(d.name), Lower(term)) || Contains(Lower(d.description), Lower(term)))
  {
    FilteredDishesIsFilter(dishes, term, category);
    TrimEmptyIffBlank(term);
  }

  /** `clearFilters()` sets the search to '' and the category to 'all', and then every dish is shown. */
  lemma ClearedFiltersShowAll(dishes: seq<App.MenuDish>)
    ensures FilteredDishes(dishes, "", "all") == dishes
  {
  }

  /** `favorites.some(fav => fav.id === dish.id)` */
  function ShowAsFavorite(favorites: seq<App.MenuDish>, dish: App.MenuDish): (r: bool)
    ensures r <==> exists i :: 0 <= i < |favorites| && favorites[i].id == dish.id
  {
    App.IsFavorite(favorites, dish.id)
  }

  /** Each press of the heart on a card flips the card's mark. */
  lemma ToggleFlipsMark(favorites: seq<App.MenuDish>, dish: App.MenuDish)
    ensures ShowAsFavorite(App.ToggleFavorite(favorites, dish), dish) == !ShowAsFavorite(favorites, dish)
  {
    App.ToggleFavoriteFlips(favorites, dish, dish.id);
  }

  function HasItemId(id: int): App.CartItem -> bool {
    (item: App.CartItem) => item.dish.id == id
  }

  /** `cart.find(item => item.id === dish.id)?.quantity || 0` */
  function CartQuantity(cart: seq<App.CartItem>, id: int): (r: int)
    ensures !App.InCart(cart, id) ==> r == 0
    ensures App.InCart(cart, id) ==>
      exists i :: (0 <= i < |cart| && cart[i].dish.id == id && r == cart[i].quantity
                   && forall j :: 0 <= j < i ==> cart[j].dish.id != id)
  {
    match Find(cart, HasItemId(id))
    case None => 0
    case Some(item) =>
      var k := FindIndex(cart, HasItemId(id)).value;
      assert cart[k] == item;
      item.quantity
  }

  /** On a cart with one line per dish, the count on a card is the quantity the cart holds for it. */
  lemma {:induction false} CartQuantityIsQuantityOf(cart: seq<App.CartItem>, id: int)
    requires App.WellFormedCart(cart)
    ensures CartQuantity(cart, id) == App.QuantityOf(cart, id)
  {
    if cart != [] {
      App.WellFormedTail(cart);
      CartQuantityIsQuantityOf(cart[1..], id);
      if cart[0].dish.id == id {
        App.QuantityOfAbsent(cart[1..], id);
      } else {
        assert CartQuantity(cart, id) == CartQuantity(cart[1..], id);
      }
    }
  }

  /** Pressing "add" on a card raises its count by one. */
  lemma AddRaisesCount(cart: seq<App.CartItem>, dish: App.MenuDish)
    requires App.WellFormedCart(cart)
    ensures CartQuantity(App.AddToCart(cart, dish), dish.id) == CartQuantity(cart, dish.id) + 1
  {
    App.AddToCartSpec(cart, dish, dish.id);
    CartQuantityIsQuantityOf(cart, dish.id);
    CartQuantityIsQuantityOf(App.AddToCart(cart, dish), dish.id);
  }
}
