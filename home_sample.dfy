/** The menu page that works on the built-in sample dishes: the name search
    and category filter, the category list drawn from the dishes, clearing
    the filters, and the favourite mark, which goes by dish name. */
module HomeSample {
  import opened Seqs
  import opened Text
  import App

  /** A sample dish; unlike the menu dishes elsewhere it has no `id`. */
  datatype SampleDish = SampleDish(name: string, price: int, img: string, category: string)

  /** The dishes the page shows once its simulated load is over. */
  const SampleDishes: seq<SampleDish> := [
    SampleDish("Paneer Butter Masala", 220, "images/paneer-butter-masala.jpg", "North Indian"),
    SampleDish("Chole Bhature", 150, "images/Chole+Bhature.jpg", "North Indian"),
    SampleDish("Masala Dosa", 120, "images/Masala+Dosa.jpg", "South Indian"),
    SampleDish("Butter Naan", 40, "images/Butter+Naan.jpg", "North Indian"),
    SampleDish("Dal Makhani", 180, "images/Dal+Makhani.jpg", "North Indian"),
    SampleDish("Veg Biryani", 200, "images/Veg+Biryani.jpg", "Biryani"),
    SampleDish("Egg Biryani", 240, "images/Egg+Biryani.jpg", "Biryani"),
    SampleDish("Chicken Biryani", 300, "images/Chicken+Biryani.jpg", "Biryani"),
    SampleDish("Fish Curry", 280, "images/Fish+Curry.jpg", "Seafood"),
    SampleDish("Prawn Masala", 350, "images/Prawn+Masala.jpg", "Seafood"),
    SampleDish("Samosa", 30, "images/Samosa.jpg", "Snacks"),
    SampleDish("Aloo Tikki", 50, "images/Aloo+Tikki.jpg", "Snacks"),
    SampleDish("Pav Bhaji", 100, "images/Pav+Bhaji.jpg", "Street Food"),
    SampleDish("Vada Pav", 40, "images/Vada+Pav.jpg", "Street Food"),
    SampleDish("Idli Sambhar", 80, "images/Idli+Sambhar.jpg", "South Indian"),
    SampleDish("Medu Vada", 70, "images/Medu+Vada.jpg", "South Indian"),
    SampleDish("Rava Upma", 90, "images/Rava+Upma.jpg", "South Indian"),
    SampleDish("Misal Pav", 110, "images/Misal+Pav.jpg", "Maharashtrian"),
    SampleDish("Pani Puri", 60, "images/Pani+Puri.jpg", "Street Food"),
    SampleDish("Dahi Puri", 70, "images/Dahi+Puri.jpg", "Street Food"),
    SampleDish("Rajma Chawal", 150, "images/Rajma+Chawal.jpg", "North Indian"),
    SampleDish("Baingan Bharta", 160, "images/Baingan+Bharta.jpg", "North Indian"),
    SampleDish("Kadai Paneer", 200, "images/Kadai+Paneer.jpg", "North Indian"),
    SampleDish("Matar Paneer", 190, "images/Matar+Paneer.jpg", "North Indian"),
    SampleDish("Shahi Paneer", 210, "images/Shahi+Paneer.jpg", "North Indian"),
    SampleDish("Gobi Manchurian", 170, "images/Gobi+Manchurian.jpg", "Chinese"),
    SampleDish("Chilli Paneer", 180, "images/Chilli+Paneer.jpg", "Chinese"),
    SampleDish("Hakka Noodles", 160, "images/Hakka+Noodles.jpg", "Chinese"),
    SampleDish("Spring Rolls", 140, "images/Spring+Rolls.jpg", "Chinese")
  ]

  /** The lower-cased name contains the lower-cased term. */
  predicate NameMatches(term: string, d: SampleDish) {
    Contains(Lower(d.name), Lower(term))
  }

  /** A dish passes both filters; an empty term or an empty category filters nothing. */
  predicate Shown(term: string, category: string, d: SampleDish) {
    (term == [] || NameMatches(term, d)) && (category == [] || d.category == category)
  }

  function NameHas(term: string): SampleDish -> bool {
    (d: SampleDish) => NameMatches(term, d)
  }

  function InCategory(category: string): SampleDish -> bool {
    (d: SampleDish) => d.category == category
  }

  function NamePass(term: string): SampleDish -> bool {
    (d: SampleDish) => term == [] || NameMatches(term, d)
  }

  function CategoryPass(category: string): SampleDish -> bool {
    (d: SampleDish) => category == [] || d.category == category
  }

  function ShownBy(term: string, category: string): SampleDish -> bool {
    (d: SampleDish) => Shown(term, category, d)
  }

  /** The filter effect: the name search when the term is non-empty, then the
      category filter when a category is selected. */
  function FilteredDishes(dishes: seq<SampleDish>, term: string, category: string): seq<SampleDish> {
    var byName := if term != [] then Filter(dishes, NameHas(term)) else dishes;
    if category != [] then Filter(byName, InCategory(category)) else byName
  }

  /** The two steps are one filter by their conjunction: the shown dishes are
      the subsequence of the dishes that pass both, in menu order. */
  lemma FilteredDishesIsFilter(dishes: seq<SampleDish>, term: string, category: string)
    ensures FilteredDishes(dishes, term, category) == Filter(dishes, ShownBy(term, category))
    ensures Subsequence(FilteredDishes(dishes, term, category), dishes)
  {
    var byName := Filter(dishes, NamePass(term));
    if term != [] {
      FilterExt(dishes, NamePass(term), NameHas(term));
    } else {
      FilterKeepsAll(dishes, NamePass(term));
    }
    if category != [] {
      FilterExt(byName, CategoryPass(category), InCategory(category));
    } else {
      FilterKeepsAll(byName, CategoryPass(category));
    }
    FilterFilter(dishes, NamePass(term), CategoryPass(category), ShownBy(term, category));
    FilterSubsequence(dishes, ShownBy(term, category));
  }

  /** Which dishes are shown, in the page's own terms. */
  lemma FilteredDishesMembers(dishes: seq<SampleDish>, term: string, category: string, d: SampleDish)
    ensures d in FilteredDishes(dishes, term, category) <==>
      d in dishes
      && (term != [] ==> Contains(Lower(d.name), Lower(term)))
      && (category != [] ==> d.category == category)
  {
    FilteredDishesIsFilter(dishes, term, category);
  }

  /** `clearFilters()` empties both inputs, and then every dish is shown. */
  lemma ClearedFiltersShowAll(dishes: seq<SampleDish>)
    ensures FilteredDishes(dishes, "", "") == dishes
  {
  }

  /** `dishes.map(dish => dish.category)` */
  function CategoriesOf(dishes: seq<SampleDish>): (r: seq<string>)
    ensures |r| == |dishes|
    ensures forall i :: 0 <= i < |dishes| ==> r[i] == dishes[i].category
  {
    seq(|dishes|, i requires 0 <= i < |dishes| => dishes[i].category)
  }

  /** `[...new Set(dishes.map(dish => dish.category))]` */
  function UniqueCategories(dishes: seq<SampleDish>): seq<string> {
    Distinct(CategoriesOf(dishes))
  }

  /** The category list names each category of the dishes once, and no other,
      in order of first appearance. */
  lemma UniqueCategoriesSpec(dishes: seq<SampleDish>)
    ensures NoDuplicates(UniqueCategories(dishes))
    ensures forall c :: c in UniqueCategories(dishes) <==> exists i :: 0 <= i < |dishes| && dishes[i].category == c
    ensures Subsequence(UniqueCategories(dishes), CategoriesOf(dishes))
  {
    DistinctSubsequence(CategoriesOf(dishes));
    forall c ensures c in CategoriesOf(dishes) <==> exists i :: 0 <= i < |dishes| && dishes[i].category == c {
      if exists i :: 0 <= i < |dishes| && dishes[i].category == c {
        var i :| 0 <= i < |dishes| && dishes[i].category == c;
        assert CategoriesOf(dishes)[i] == c;
      }
    }
  }

  /** Every category the list offers selects at least one dish. */
  lemma EveryCategorySelectsADish(dishes: seq<SampleDish>, c: string)
    requires c in UniqueCategories(dishes)
    ensures FilteredDishes(dishes, "", c) != []
  {
    UniqueCategoriesSpec(dishes);
    var i :| 0 <= i < |dishes| && dishes[i].category == c;
    FilteredDishesMembers(dishes, "", c, dishes[i]);
  }

  /** `favorites.some(fav => fav.name === dish.name)` */
  predicate ShownAsFavorite(favorites: seq<App.MenuDish>, d: SampleDish) {
    exists i :: 0 <= i < |favorites| && favorites[i].name == d.name
  }

  /** Adding through the shared favourites toggle a menu dish of the same name
      as a sample dish shows that sample dish as a favourite. */
  lemma ToggledOnShowsFavorite(favorites: seq<App.MenuDish>, m: App.MenuDish, d: SampleDish)
    requires !App.IsFavorite(favorites, m.id) && m.name == d.name
    ensures ShownAsFavorite(App.ToggleFavorite(favorites, m), d)
  {
    var r := App.ToggleFavorite(favorites, m);
    assert r[|favorites|] == m;
  }
}
