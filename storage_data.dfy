/** The records of the client-side store (localStorageService.js) and the
    pure operations on single records: spread-merge updates, totals, and the
    values `initializeData` seeds. Timestamps (`Date.now()`, ISO strings) are
    modelled as integer milliseconds since the epoch, supplied by the caller. */
module StorageData {
  import opened Wrappers
  import opened Seqs

  /** Milliseconds since the epoch. */
  type Instant = int

  const MsPerDay: int := 86400000

  /** The UTC calendar day of an instant, which is what `toISOString().split('T')[0]` names. */
  function DayOf(t: Instant): int {
    t / MsPerDay
  }

  datatype Dish = Dish(id: int, name: string, price: int, img: string, category: string, createdAt: Option<Instant>)

  /** The argument of `addDish`: an `id` in it overrides the generated one. */
  datatype DishDraft = DishDraft(id: Option<int>, name: string, price: int, img: string, category: string)

  /** The argument of `updateDish`: the fields present in it win over the stored ones. */
  datatype DishPatch = DishPatch(
    id: Option<int>, name: Option<string>, price: Option<int>, img: Option<string>,
    category: Option<string>, createdAt: Option<Instant>)

  /** A cart line as index.js builds it: `{...dish, qty}`. */
  datatype QtyLine = QtyLine(dish: Dish, qty: int)

  /** A stored order. Fields other than `id` and `completed` may be missing. */
  datatype Order = Order(
    id: int, customer: Option<string>, table: Option<string>, cart: Option<seq<QtyLine>>,
    time: Option<Instant>, createdAt: Option<Instant>, status: Option<string>, completed: bool)

  /** An object spread over an order: the argument of `addOrder` and of `updateOrder`. */
  datatype OrderPatch = OrderPatch(
    id: Option<int>, customer: Option<string>, table: Option<string>, cart: Option<seq<QtyLine>>,
    time: Option<Instant>, createdAt: Option<Instant>, status: Option<string>, completed: Option<bool>)

  /** A favourite: `{...dish, dateAdded}`. */
  datatype Favorite = Favorite(dish: Dish, dateAdded: Instant)

  datatype SettingValue = TextSetting(text: string) | FlagSetting(flag: bool)

  type Settings = map<string, SettingValue>

  /** One field of `{...base, ...patch}`: the patch wins when it has the field. */
  function Override<T>(patch: Option<T>, base: T): T {
    if patch.Some? then patch.value else base
  }

  function OverrideOpt<T>(patch: Option<T>, base: Option<T>): Option<T> {
    if patch.Some? then patch else base
  }

  /** `{...o, ...p}` for orders. */
  function MergeOrder(o: Order, p: OrderPatch): (r: Order)
    ensures r.id == (if p.id.Some? then p.id.value else o.id)
    ensures r.customer == (if p.customer.Some? then p.customer else o.customer)
    ensures r.table == (if p.table.Some? then p.table else o.table)
    ensures r.cart == (if p.cart.Some? then p.cart else o.cart)
    ensures r.time == (if p.time.Some? then p.time else o.time)
    ensures r.createdAt == (if p.createdAt.Some? then p.createdAt else o.createdAt)
    ensures r.status == (if p.status.Some? then p.status else o.status)
    ensures r.completed == (if p.completed.Some? then p.completed.value else o.completed)
  {
    Order(Override(p.id, o.id), OverrideOpt(p.customer, o.customer), OverrideOpt(p.table, o.table),
          OverrideOpt(p.cart, o.cart), OverrideOpt(p.time, o.time), OverrideOpt(p.createdAt, o.createdAt),
          OverrideOpt(p.status, o.status), Override(p.completed, o.completed))
  }

  /** The order `addOrder(draft)` builds at instant `now`:
      `{id: now, ...draft, createdAt: now, status: 'pending', completed: false}`. */
  function NewOrder(draft: OrderPatch, now: Instant): (r: Order)
    ensures r.id == (if draft.id.Some? then draft.id.value else now)
    ensures r.customer == draft.customer && r.table == draft.table && r.cart == draft.cart && r.time == draft.time
    ensures r.createdAt == Some(now) && r.status == Some("pending") && !r.completed
  {
    var base := Order(now, None, None, None, None, None, None, false);
    var fixed := OrderPatch(None, None, None, None, None, Some(now), Some("pending"), Some(false));
    MergeOrder(MergeOrder(base, draft), fixed)
  }

  /** Applying the same patch twice is applying it once. */
  lemma MergeOrderIdempotent(o: Order, p: OrderPatch)
    ensures MergeOrder(MergeOrder(o, p), p) == MergeOrder(o, p)
  {
  }

  /** `{...d, ...p}` for dishes. */
  function MergeDish(d: Dish, p: DishPatch): (r: Dish)
    ensures r.id == (if p.id.Some? then p.id.value else d.id)
    ensures r.name == (if p.name.Some? then p.name.value else d.name)
    ensures r.price == (if p.price.Some? then p.price.value else d.price)
    ensures r.img == (if p.img.Some? then p.img.value else d.img)
    ensures r.category == (if p.category.Some? then p.category.value else d.category)
    ensures r.createdAt == (if p.createdAt.Some? then p.createdAt else d.createdAt)
  {
    Dish(Override(p.id, d.id), Override(p.name, d.name), Override(p.price, d.price), Override(p.img, d.img),
         Override(p.category, d.category), OverrideOpt(p.createdAt, d.createdAt))
  }

  /** The dish `addDish(draft)` builds at instant `now`: `{id: now, ...draft, createdAt: now}`. */
  function NewDish(draft: DishDraft, now: Instant): (r: Dish)
    ensures r.id == (if draft.id.Some? then draft.id.value else now)
    ensures r.name == draft.name && r.price == draft.price && r.img == draft.img && r.category == draft.category
    ensures r.createdAt == Some(now)
  {
    Dish(Override(draft.id, now), draft.name, draft.price, draft.img, draft.category, Some(now))
  }

  function HasOrderId(id: int): Order -> bool {
    (o: Order) => o.id == id
  }

  function LacksOrderId(id: int): Order -> bool {
    (o: Order) => o.id != id
  }

  function HasDishId(id: int): Dish -> bool {
    (d: Dish) => d.id == id
  }

  function LacksDishId(id: int): Dish -> bool {
    (d: Dish) => d.id != id
  }

  function LineAmount(l: QtyLine): int {
    l.qty * l.dish.price
  }

  function LineQty(l: QtyLine): int {
    l.qty
  }

  /** `cart.reduce((s, i) => s + i.qty * i.price, 0)` */
  function CartRevenue(cart: seq<QtyLine>): int {
    Sum(cart, LineAmount)
  }

  /** `cart.reduce((s, i) => s + i.qty, 0)` */
  function CartQuantity(cart: seq<QtyLine>): int {
    Sum(cart, LineQty)
  }

  /** The 5% GST every receipt adds to the subtotal. */
  const GstRate: real := 0.05

  /** An order's cart total; a missing cart counts 0. */
  function OrderTotal(o: Order): int {
    if o.cart.Some? then CartRevenue(o.cart.value) else 0
  }

  /** The cart total is additive over concatenated carts and 0 for the empty cart. */
  lemma CartRevenueConcat(a: seq<QtyLine>, b: seq<QtyLine>)
    ensures CartRevenue([]) == 0
    ensures CartRevenue(a + b) == CartRevenue(a) + CartRevenue(b)
  {
    SumConcat(a, b, LineAmount);
  }

  /** With no negative quantity or price the cart total is not negative. */
  lemma CartRevenueNonNegative(cart: seq<QtyLine>)
    requires forall i :: 0 <= i < |cart| ==> cart[i].qty >= 0 && cart[i].dish.price >= 0
    ensures CartRevenue(cart) >= 0
  {
    SumNonNegative(cart, LineAmount);
  }

  /** The dish catalogue `initializeData` seeds. */
  const DefaultDishes: seq<Dish> := [
    Dish(1, "Paneer Butter Masala", 220, "images/paneer-butter-masala.jpg", "North Indian", None),
    Dish(2, "Chole Bhature", 150, "images/Chole+Bhature.jpg", "North Indian", None),
    Dish(3, "Masala Dosa", 120, "images/Masala+Dosa.jpg", "South Indian", None),
    Dish(4, "Butter Naan", 40, "images/Butter+Naan.jpg", "North Indian", None),
    Dish(5, "Dal Makhani", 180, "images/Dal+Makhani.jpg", "North Indian", None),
    Dish(6, "Veg Biryani", 200, "images/Veg+Biryani.jpg", "Biryani", None),
    Dish(7, "Egg Biryani", 240, "images/Egg+Biryani.jpg", "Biryani", None),
    Dish(8, "Chicken Biryani", 300, "images/Chicken+Biryani.jpg", "Biryani", None),
    Dish(9, "Fish Curry", 280, "images/Fish+Curry.jpg", "Seafood", None),
    Dish(10, "Prawn Masala", 350, "images/Prawn+Masala.jpg", "Seafood", None),
    Dish(11, "Samosa", 30, "images/Samosa.jpg", "Snacks", None),
    Dish(12, "Aloo Tikki", 50, "images/Aloo+Tikki.jpg", "Snacks", None),
    Dish(13, "Pav Bhaji", 100, "images/Pav+Bhaji.jpg", "Street Food", None),
    Dish(14, "Vada Pav", 40, "images/Vada+Pav.jpg", "Street Food", None),
    Dish(15, "Idli Sambhar", 80, "images/Idli+Sambhar.jpg", "South Indian", None),
    Dish(16, "Medu Vada", 70, "images/Medu+Vada.jpg", "South Indian", None),
    Dish(17, "Rava Upma", 90, "images/Rava+Upma.jpg", "South Indian", None),
    Dish(18, "Misal Pav", 110, "images/Misal+Pav.jpg", "Maharashtrian", None),
    Dish(19, "Pani Puri", 60, "images/Pani+Puri.jpg", "Street Food", None),
    Dish(20, "Dahi Puri", 70, "images/Dahi+Puri.jpg", "Street Food", None),
    Dish(21, "Rajma Chawal", 150, "images/Rajma+Chawal.jpg", "North Indian", None),
    Dish(22, "Baingan Bharta", 160, "images/Baingan+Bharta.jpg", "North Indian", None),
    Dish(23, "Kadai Paneer", 200, "images/Kadai+Paneer.jpg", "North Indian", None),
    Dish(24, "Matar Paneer", 190, "images/Matar+Paneer.jpg", "North Indian", None),
    Dish(25, "Shahi Paneer", 210, "images/Shahi+Paneer.jpg", "North Indian", None),
    Dish(26, "Gobi Manchurian", 170, "images/Gobi+Manchurian.jpg", "Chinese", None),
    Dish(27, "Chilli Paneer", 180, "images/Chilli+Paneer.jpg", "Chinese", None),
    Dish(28, "Hakka Noodles", 160, "images/Hakka+Noodles.jpg", "Chinese", None),
    Dish(29, "Spring Rolls", 140, "images/Spring+Rolls.jpg", "Chinese", None),
    Dish(30, "Panipuri", 120, "image/panipuri.jpg", "Chinese", None),
    Dish(31, "Dal Makhani", 100, "image/Dal Makhani.jpg", "Soups", None),
    Dish(32, "Mendul Wada", 110, "image/mendul wada.jpg", "Soups", None),
    Dish(33, "Bread Pakoda", 120, "image/bread pakora.jpeg", "Soups", None),
    Dish(34, "Franki", 130, "image/franki.jpg", "Chinese", None),
    Dish(35, "Chana Masala", 150, "image/Chana Masala.jpg", "North Indian", None),
    Dish(36, "Jalebi Fafada", 140, "image/Jalebi fafada.jpeg", "Gujrati", None),
    Dish(37, "Cutlet", 160, "image/cutlet.jpg", "North Indian", None),
    Dish(38, "Naan", 180, "image/Naan.jpg", "Rice", None),
    Dish(39, "Paratha", 200, "image/paratha.jpg", "Rice", None),
    Dish(40, "Puff", 170, "image/Puff.jpeg", "Chinese", None),
    Dish(41, "Kulfi", 190, "image/Kulfi.jpg", "Chinese", None),
    Dish(42, "Sweet White Jamun", 320, "image/rasgulla.jpg", "Mughlai", None),
    Dish(43, "Ras Malai", 330, "image/Rasmalai.jpg", "Mughlai", None),
    Dish(44, "Khaman", 300, "image/Khaman.jpg", "surati", None),
    Dish(45, "Manchuriyan", 300, "image/Manchuriyan.jpg", "Chinese", None),
    Dish(46, "Lassi", 300, "image/Lassi.jpg", "Chinese", None),
    Dish(47, "Gulab Jamun", 300, "image/Gulab jamun.jpg", "Chinese", None),
    Dish(48, "Barfi", 300, "image/Barfi.jpg", "Chinese", None),
    Dish(49, "Momos", 300, "image/momos.jpeg", "Chinese", None),
    Dish(50, "Garlic-Bread", 300, "image/Garlic.jpg", "Chinese", None),
    Dish(51, "Chaat", 300, "image/Chaat.jpg", "Chinese", None),
    Dish(52, "Chocalate Ice-Cream", 280, "image/chocalateice.jpg", "Ice-cream", None),
    Dish(53, "Vanila Ice-Cream", 150, "image/vanila.jpg", "Ice-cream", None),
    Dish(54, "Stobery Ice-Cream", 330, "image/stobaryice.jpg", "Ice-cream", None)
  ]

  /** The category list `initializeData` seeds. */
  const DefaultCategories: seq<string> := [
    "North Indian", "South Indian", "Biryani", "Seafood", "Snacks",
    "Street Food", "Maharashtrian", "Chinese", "Soups", "Gujrati",
    "Rice", "Mughlai", "surati", "Ice-cream"
  ]

  /** The settings record `initializeData` seeds. */
  const DefaultSettings: Settings := map[
    "theme" := TextSetting("light"),
    "currency" := TextSetting("\U{20B9}"),
    "language" := TextSetting("en"),
    "notifications" := FlagSetting(true),
    "autoSave" := FlagSetting(true)
  ]
}
