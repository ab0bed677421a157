# Restaurant ordering front end — a Dafny model

This project models the client side of a small restaurant-ordering web
application:

- the `localStorageService` store, which keeps orders, dishes, categories,
  favourites and settings under five keys of the browser's local storage,
  together with the views it derives from them (order statistics, a
  popularity ranking, revenue per day) and its export, import and backup;
- the plain-script menu page `index.js`, with its page cart keyed by dish
  name, order placement, the printed receipt and favourites;
- the React shell `src/App.js`, which holds the cart, the favourites, the
  customer details and the orders of the session;
- the pages `Kitchen` (the order queue, with its status, table and search
  filters, completing and deleting orders, and the "time ago" labels),
  `History` (the saved orders, the selected order, deleting and clearing),
  `Receipt` (the fallback receipt and its totals), and the two menu pages
  `Home.js` (built-in sample dishes) and `Home.jsx` (dishes from the dish
  service).

The layout is one module per source unit:

| module | file | source |
|---|---|---|
| `StorageData` | storage_data.dfy | the records, defaults and totals of the store |
| `StorageService` | storage_service.dfy | the `LocalStorageService` class |
| `StorageAnalytics` | storage_analytics.dfy | statistics, popular dishes, revenue by date |
| `IndexPage` | index_page.dfy | index.js |
| `App` | app.dfy | src/App.js |
| `Kitchen` | kitchen.dfy | src/pages/Kitchen.js |
| `History` | history.dfy | src/pages/History.js |
| `Receipt` | receipt.dfy | src/pages/Receipt.jsx |
| `HomeSample` | home_sample.dfy | src/pages/Home.js |
| `Home` | home.dfy | src/pages/Home.jsx |

The modules `Wrappers`, `Seqs` and `Text` hold shared helpers. `Wrappers`
has `Option`. `Seqs` has filtering, subsequences, sums and de-duplication.
`Text` has JavaScript's `trim`, ASCII `toLowerCase`, `includes`, the `||`
default on strings, character order and decimal digits.

The store is a class. Its five keys are `Option` fields, and `None` stands
for a key that is not stored. Each store method states the whole new state
and says which keys it leaves alone. The menu page of `index.js` is a class
too: its `dishes`, `cart` and `favorites` variables are fields. The React
pages keep their state in hooks, and each state update is the pure function
of the previous state that the source passes to `setState`. Those modules
are therefore written as functions and lemmas.

Loops in the source are modelled as loops where they update variables step
by step:

- `updateCartUI`'s running total;
- the tally in `getPopularDishes`;
- the buckets in `getRevenueByDate`.

Each of these methods is proved equal to a function, and the properties are
proved about that function.

There are no clocks or randomness; the caller supplies them:

- `Date.now()` is an `Instant` parameter (milliseconds);
- "today" in `getRevenueByDate` is a UTC day number;
- `Math.random()` is replaced by the three-digit number it yields;
- the answers of the order and dish services are passed in as `Option`
  values, where `None` is a failed request.

Where a stored field may be missing, the model uses `Option`. JavaScript's
falsy tests (`x || d`, `if (x)`) become "missing or empty".

## Model

| member | source | states |
|---|---|---|
| StorageData.NewOrder | localStorageService.js:116-122 | the new order takes the draft's id if it has one, else the creation instant; it carries the draft's customer, table, cart and time; it is created now, with status "pending", and not completed |
| StorageData.MergeOrder | localStorageService.js:132-132 | an order update, field by field for all eight fields: a field the patch carries replaces the stored one, every other field keeps its stored value |
| StorageData.MergeOrderIdempotent | localStorageService.js:132-132 | applying the same update twice gives the same order as applying it once |
| StorageData.NewDish | localStorageService.js:175-179 | the new dish takes the draft's id if it has one, else the creation instant; it carries the draft's fields and is created now |
| StorageData.MergeDish | localStorageService.js:189-189 | a dish update, field by field for all six fields: each field the patch carries wins, the others keep the stored value |
| StorageData.CartRevenueConcat | localStorageService.js:289-289 | the `qty * price` cart total is 0 for an empty cart and adds up over concatenated carts |
| StorageData.CartRevenueNonNegative | localStorageService.js:289-289 | with no negative quantity or price, a cart total is not negative |
| StorageService.Seed | localStorageService.js:11-13 | seeding a key keeps a stored value and otherwise stores the default |
| StorageService.Import | localStorageService.js:358-362 | importing a key writes the incoming value when there is one and otherwise keeps the stored value |
| StorageService.EmptyCustomerQueryMatchesNamed | localStorageService.js:153-155 | an empty customer query matches exactly the orders with a non-empty customer name |
| StorageService.SearchIgnoresQueryCase | localStorageService.js:210-213 | the dish search gives the same answer for a query and for its lower-cased form |
| StorageService.LocalStorageService.constructor | localStorageService.js:4-6 | a store opened on empty local storage holds no orders or favourites and the default dishes, categories and settings |
| StorageService.LocalStorageService.InitializeData | localStorageService.js:9-102 | seeds exactly the keys that are not stored, each with its default, and afterwards every key is stored; on a store where every key is already stored it changes nothing |
| StorageService.LocalStorageService.OrderById | localStorageService.js:109-112 | finds an order exactly when some stored order has that id, and the order found is stored and has that id |
| StorageService.LocalStorageService.AddOrder | localStorageService.js:114-126 | appends the new order to the stored list and returns it; it can then be found by its id; the other keys are unchanged |
| StorageService.LocalStorageService.UpdateOrder | localStorageService.js:128-137 | with no order of that id, nothing changes and the result is null; otherwise only the first such order is replaced by its merge with the patch, which is returned; the list length and the other keys are unchanged |
| StorageService.LocalStorageService.DeleteOrder | localStorageService.js:139-144 | keeps every order whose id differs, in order, and no other; no order of the id is left; an absent id changes nothing; returns true; the other keys are unchanged |
| StorageService.LocalStorageService.OrdersByStatus | localStorageService.js:146-149 | exactly the stored orders with that status, in stored order |
| StorageService.LocalStorageService.OrdersByCustomer | localStorageService.js:151-156 | exactly the stored orders with a non-empty customer name that contains the query, ignoring case, in stored order |
| StorageService.LocalStorageService.OrdersByTable | localStorageService.js:158-161 | exactly the stored orders at that table, in stored order |
| StorageService.LocalStorageService.DishById | localStorageService.js:168-171 | finds a dish exactly when some stored dish has that id, and the dish found is stored and has that id |
| StorageService.LocalStorageService.AddDish | localStorageService.js:173-183 | appends the new dish and returns it; it can then be found by its id; the other keys are unchanged |
| StorageService.LocalStorageService.UpdateDish | localStorageService.js:185-194 | with no dish of that id, nothing changes and the result is null; otherwise only the first such dish is replaced by its merge with the patch, which is returned |
| StorageService.LocalStorageService.DeleteDish | localStorageService.js:196-201 | keeps every dish whose id differs, in order; no dish of the id is left; an absent id changes nothing; returns true |
| StorageService.LocalStorageService.DishesByCategory | localStorageService.js:203-206 | exactly the stored dishes of that category, in stored order |
| StorageService.LocalStorageService.SearchDishes | localStorageService.js:208-214 | exactly the stored dishes whose lower-cased name or category contains the lower-cased query, in stored order |
| StorageService.LocalStorageService.AddCategory | localStorageService.js:221-228 | a new name is appended and stored; a present name changes nothing; the name is in the returned list either way, and a list without duplicates stays without them |
| StorageService.LocalStorageService.DeleteCategory | localStorageService.js:230-235 | removes every copy of the name, keeps all other names in order, stores and returns the result |
| StorageService.LocalStorageService.AddToFavorites | localStorageService.js:242-256 | when a favourite with the dish's id exists, returns null and changes nothing; otherwise it appends the dish, stamped with the instant it was added, and returns it; the dish is a favourite afterwards, and favourite ids stay unique |
| StorageService.LocalStorageService.RemoveFromFavorites | localStorageService.js:258-263 | the id is no longer a favourite, every other id keeps its favourite status, the rest keep their order, and the result is true |
| StorageService.LocalStorageService.UpdateSettings | localStorageService.js:275-280 | stores and returns the union of the current settings and the patch, in which the patch's keys win |
| StorageService.LocalStorageService.GetOrderStatistics | localStorageService.js:283-300 | counts every stored order once, as either completed or pending; the revenue is the total of every cart line of every order; the rate is the completed share in percent |
| StorageService.LocalStorageService.GetPopularDishes | localStorageService.js:302-318 | the method's per-name tally loop yields exactly the ranking `StorageAnalytics.PopularDishes` of the stored orders |
| StorageService.LocalStorageService.GetPopularDishesDefault | localStorageService.js:302-302 | called without a limit, the ranking is `PopularDishes` with the default limit and holds at most ten entries |
| StorageService.LocalStorageService.GetRevenueByDate | localStorageService.js:320-341 | the method's two loops, zeroing the days and then adding each order to its day, yield exactly `StorageAnalytics.RevenueByDate` of the stored orders; null when an order has no date |
| StorageService.LocalStorageService.GetRevenueByDateDefault | localStorageService.js:320-320 | called without a window, the result is `RevenueByDate` over seven days: exactly seven buckets, today and the six days before |
| StorageService.LocalStorageService.ExportData | localStorageService.js:344-354 | the snapshot holds every stored list, the settings and the export instant |
| StorageService.LocalStorageService.ImportData | localStorageService.js:356-368 | a missing snapshot fails and changes nothing; otherwise each key the snapshot carries is written and every other key is kept |
| StorageService.LocalStorageService.ClearAllData | localStorageService.js:371-378 | the store is left exactly as a fresh store: no orders or favourites, and the default dishes, categories and settings |
| StorageService.LocalStorageService.CreateBackup | localStorageService.js:391-398 | the backup wraps the export of the current store, with its timestamp and version "1.0" |
| StorageService.LocalStorageService.RestoreBackup | localStorageService.js:400-405 | succeeds exactly when the backup and its data are present, and then imports that data; otherwise nothing changes |
| StorageService.LocalStorageService.RestoreOwnBackup | localStorageService.js:391-405 | round trip: restoring a backup of an initialized store succeeds and leaves every list and the settings as they were |
| StorageAnalytics.CompletionRate | localStorageService.js:298-298 | 0 with no orders; otherwise the rate times the order count is 100 times the completed count; always between 0 and 100 |
| StorageAnalytics.OrderStatistics | localStorageService.js:283-300 | the total is the order count, split into a completed count and a pending count; the revenue is the sum of the order totals |
| StorageAnalytics.RevenueIsAllLines | localStorageService.js:288-291 | the sum of per-order cart totals equals the total of all cart lines put together |
| StorageAnalytics.Tally | localStorageService.js:304-315 | one entry per distinct ordered name, in order of first appearance, carrying the total `qty` ordered under that name |
| StorageAnalytics.TallyFacts | localStorageService.js:306-312 | the tally names each dish at most once, every entry's count is its name's total, and every ordered name has an entry |
| StorageAnalytics.SortByCount | localStorageService.js:316-316 | sorting by count is a permutation of the tally |
| StorageAnalytics.SortKeepsEntries | localStorageService.js:316-316 | sorting keeps the number of entries and the entries themselves |
| StorageAnalytics.SortNonIncreasing | localStorageService.js:316-316 | the sorted ranking has non-increasing counts |
| StorageAnalytics.SortStable | localStorageService.js:316-316 | the sort is stable: entries with equal counts keep their order of first appearance |
| StorageAnalytics.PopularDishesSorted | localStorageService.js:302-318 | the ranking names each dish once and is sorted by count, highest first |
| StorageAnalytics.PopularDishesCounts | localStorageService.js:302-318 | each ranked entry is an ordered name with the total quantity ordered under it, and there are at most `limit` entries |
| StorageAnalytics.PopularDishesComplete | localStorageService.js:314-317 | when the limit covers every distinct name, every ordered name is ranked |
| StorageAnalytics.Window | localStorageService.js:325-330 | the window is today and the `days - 1` days before it |
| StorageAnalytics.WindowSize | localStorageService.js:325-330 | there are exactly `days` buckets, and none when `days` is not positive |
| StorageAnalytics.NoOrdersNoRevenue | localStorageService.js:320-341 | with no orders every bucket of the window is 0 |
| StorageAnalytics.RevenueAddOrder | localStorageService.js:332-338 | one more dated order adds its cart total to its own day's bucket and changes no other bucket |
| StorageAnalytics.RevenueIgnoresOutsideWindow | localStorageService.js:333-334 | an order dated outside the window changes no bucket |
| IndexPage.CartWithSpec | index.js:72-80 | adding a dish raises the quantity of the line with the same name by one, or appends a line with quantity 1 when there is none; one line per name is kept |
| IndexPage.CartWithQuantity | index.js:96-96 | every add raises the cart's item count by exactly one |
| IndexPage.OrderDraft | index.js:102-107 | the order draft carries the cart and the time; a blank name becomes 'Anonymous' and a blank table 'Takeaway', so neither is ever empty |
| IndexPage.GenerateOrderId | index.js:337-341 | every order id starts with "SG" |
| IndexPage.OrderIdDigits | index.js:337-341 | for a timestamp of six or more digits, the id is "SG", then the last six digits of the timestamp, then the random number padded to three digits: eleven characters |
| IndexPage.ShownButtonDish | index.js:39-56 | the corrected lookup: the button at index `i` names the `i`-th dish of the filtered list, which exists exactly when `i` is inside that list, and passes the search |
| IndexPage.ButtonIndexMismatch | index.js:39-72 | counterexample: with the category "South Indian" selected, the first button adds the catalogue's first dish, which is not on the screen |
| IndexPage.MenuPage.constructor | index.js:4-7 | the page starts with the store's dishes, an empty cart and the stored favourites |
| IndexPage.MenuPage.ShownDishes | index.js:37-40 | the listed dishes are exactly those whose lower-cased name contains the lower-cased term and that belong to the chosen category (any category when none is chosen), in catalogue order |
| IndexPage.MenuPage.AddLine | index.js:72-80 | the cart becomes the cart with the dish added; the popup reports a new line exactly when the cart grew, and otherwise the line's new quantity |
| IndexPage.ButtonIndexInCatalogue | index.js:53-72 | every index a button of the filtered list passes lies inside the catalogue, so `dishes[i]` names a dish |
| IndexPage.MenuPage.AddToCart | index.js:67-82 | as written, with the whole catalogue's index (one a button passes): a name that is blank after trimming, then a blank table, leaves the cart alone and says so; otherwise the `i`-th catalogue dish is added; the cart keeps one line per name, and its count rises by one exactly on an add |
| IndexPage.MenuPage.AddShownToCart | index.js:67-82 | the same checks, with the `i`-th dish of the list the page shows, which is the dish `ShownButtonDish` names |
| IndexPage.MenuPage.CartSummary | index.js:84-97 | the running total is the cart's `qty * price` total and the count is its total quantity |
| IndexPage.MenuPage.PlaceOrder | index.js:99-113 | an empty cart places nothing; otherwise exactly one pending order is appended to the store, holding the cart with the defaulted name and table; the cart is empty afterwards and the other keys are unchanged |
| IndexPage.MenuPage.PrintReceipt | index.js:115-123 | nothing for an empty cart; otherwise the receipt has the cart's lines, the subtotal of the cart, 5% GST and the subtotal plus GST as grand total, the defaulted name and table, and the generated id |
| IndexPage.MenuPage.FavoriteDish | index.js:344-353 | a dish not yet a favourite is added, stamped with the instant, and the page list is re-read; a dish already a favourite changes nothing; the dish is a favourite afterwards |
| IndexPage.MenuPage.AddToFavorite | index.js:343-354 | as written: the `i`-th dish of the whole catalogue is favourited; it is stored with its time unless its id is already a favourite, in which case nothing is written and the page's list is unchanged; after an add the page's list is re-read from the store |
| IndexPage.MenuPage.AddShownToFavorite | index.js:343-354 | the same, with the `i`-th dish of the list the page shows: stored unless already a favourite, no write otherwise, and the page's list re-read after an add |
| App.BumpQuantity | src/App.js:73-77 | every line of the dish gets one more, and every other line is unchanged |
| App.SetQuantity | src/App.js:92-96 | every line of the dish gets the new quantity, and every other line is unchanged |
| App.AddToCart | src/App.js:69-82 | a dish already in the cart raises the quantity of its line by one and leaves every other line as it was (`BumpQuantity`); a new dish is appended with quantity 1; the dish is in the cart afterwards |
| App.AddToCartSpec | src/App.js:69-82 | on a cart with one line per dish, adding keeps that shape, raises the dish's quantity by exactly one and leaves every other dish's quantity alone |
| App.RemoveFromCart | src/App.js:84-86 | the cart keeps exactly the lines of other dishes, in order, and holds none of the dish |
| App.UpdateCartItemQuantity | src/App.js:88-98 | a quantity of 0 or less removes the dish; otherwise the dish's lines take the new quantity and the others stay |
| App.UpdateQuantityWellFormed | src/App.js:88-98 | changing a quantity keeps one line per dish with every quantity at least 1 |
| App.ClearCart | src/App.js:100-102 | empties the cart and keeps everything else |
| App.ToggleFavorite | src/App.js:104-113 | a favourite dish is dropped, with every other entry of its id; any other dish is appended |
| App.ToggleFavoriteFlips | src/App.js:104-113 | the toggle flips the favourite status of the dish's id and no other id |
| App.ToggleFavoriteTwice | src/App.js:104-113 | toggling twice restores a list in which the dish was not a favourite; when it was one, its entries end up replaced by the one dish at the end |
| App.SetTableNo | src/App.js:119-121 | replaces the table and keeps the name |
| App.SetCustomerName | src/App.js:123-125 | replaces the name and keeps the table |
| App.PlaceOrder | src/App.js:128-207 | a missing name or table, then an empty cart, changes nothing; otherwise an order with the cart, its total and the service's id (or the current instant when the call fails) is put before the earlier orders, and the cart is emptied |
| Kitchen.Loaded | src/pages/Kitchen.js:23-28 | a loaded order keeps its id, customer, table and time, gets 'pending' for a missing status and an empty cart for a missing one, and always has a status |
| Kitchen.LoadOrders | src/pages/Kitchen.js:23-28 | every order of the response is loaded, in order |
| Kitchen.FetchOrders | src/pages/Kitchen.js:17-40 | with a response, the result is exactly `LoadOrders` of it (each order with a status and a cart, the other fields kept); when the call fails, the locally stored orders are shown as they are |
| Kitchen.StatusStage | src/pages/Kitchen.js:69-81 | the status switch keeps a missing or "pending" status for 'pending', exactly "completed" for 'completed', and every order otherwise |
| Kitchen.TableStage | src/pages/Kitchen.js:84-96 | the table filter keeps all orders for 'all' and otherwise the orders at that table |
| Kitchen.SearchStage | src/pages/Kitchen.js:99-115 | a term that trims to nothing keeps all orders; otherwise an order is kept when its customer, its table or an item name contains the term, ignoring case |
| Kitchen.FilteredOrdersIsFilter | src/pages/Kitchen.js:60-120 | the three filters in a row are one filter by their conjunction, so the view is the subsequence of the orders passing all three |
| Kitchen.FilteredOrdersMembers | src/pages/Kitchen.js:60-120 | an order is shown exactly when it is held and passes the status choice, the table choice and, for a non-blank term, the search |
| Kitchen.ClearedFiltersShowAll | src/pages/Kitchen.js:153-157 | after clearing the filters every order is shown, in order |
| Kitchen.LoadedPendingIsPending | src/pages/Kitchen.js:23-28 | after loading, the 'pending' view holds exactly the loaded orders whose status is "pending" |
| Kitchen.TablesOf | src/pages/Kitchen.js:44-44 | the table of each order, in order |
| Kitchen.SortStrings | src/pages/Kitchen.js:44-44 | sorting is a permutation |
| Kitchen.SortIncreasing | src/pages/Kitchen.js:44-44 | sorting a list without duplicates gives a strictly ascending list |
| Kitchen.AvailableTablesSpec | src/pages/Kitchen.js:43-47 | the table list is strictly ascending and holds exactly the tables of the orders |
| Kitchen.IncreasingUnique | src/pages/Kitchen.js:44-44 | two ascending lists of the same tables are equal, so the table list is determined by the tables in use |
| Kitchen.MarkOrderComplete | src/pages/Kitchen.js:243-249 | the orders with the id become completed, and every other order is unchanged and stays in place |
| Kitchen.MarkOrderCompleteIdempotent | src/pages/Kitchen.js:243-249 | completing an order twice equals completing it once |
| Kitchen.CompletingLeavesPendingView | src/pages/Kitchen.js:243-249 | completing an order removes exactly that order from the pending view, whatever the table and search choices |
| Kitchen.DeleteOrder | src/pages/Kitchen.js:265-265 | keeps exactly the orders with another id, in order |
| Kitchen.DeleteOrderIdempotent | src/pages/Kitchen.js:265-265 | deleting twice equals deleting once, and deleting an absent id changes nothing |
| Kitchen.CalculateTotalNonNegative | src/pages/Kitchen.js:275-277 | with no negative price or quantity, the order total is not negative |
| Kitchen.CalculateTotalSplit | src/pages/Kitchen.js:275-277 | the order total adds up over concatenated carts |
| Kitchen.CalculateTotalOne | src/pages/Kitchen.js:275-277 | a one-line cart totals its price times its quantity |
| Kitchen.GetTimeAgo | src/pages/Kitchen.js:130-143 | under a minute is "just now", under an hour counts minutes, under a day counts whole hours (1 to 23), and beyond that whole days; each count is the elapsed time rounded down; a time that is not a date gives the NaN label |
| Kitchen.OlderNeverFresher | src/pages/Kitchen.js:130-143 | an older order never gets a label in a smaller unit than a newer one |
| Kitchen.Label | src/pages/Kitchen.js:136-139 | the minute, hour and day labels begin with the decimal digits of their count |
| History.Mount | src/pages/History.js:9-15 | the saved orders if there are any, else none; nothing selected |
| History.SelectOrder | src/pages/History.js:101-101 | selecting a row shows that row's order and records that row number, and the selection is valid |
| History.RemoveAt | src/pages/History.js:42-42 | removing a row that exists drops exactly that row and shifts the later rows up by one; an index outside the list changes nothing |
| History.RemoveAtSubsequence | src/pages/History.js:42-42 | the remaining rows keep their order |
| History.DeleteOrder | src/pages/History.js:40-50 | as written: the row goes, and the selection is cleared exactly when its recorded row number is the deleted one |
| History.DeleteBelowSelectionKeepsItValid | src/pages/History.js:40-50 | deleting only rows below the selected one keeps the selection valid |
| History.DeleteLeavesStaleSelection | src/pages/History.js:40-50 | counterexample: three orders, the third selected, delete row 0 and then row 1; the third order is gone yet still shown |
| History.DeleteOrderTracked | src/pages/History.js:40-50 | corrected: the selection follows its order and stays valid, and it is cleared exactly when its own row is deleted |
| History.TrackedDeleteClearsDeletedSelection | src/pages/History.js:40-50 | with the correction, deleting the selected row always clears the details pane |
| History.ClearHistory | src/pages/History.js:32-38 | no orders and nothing selected |
| History.CalculateTotalIsOrderTotal | src/pages/History.js:28-30 | the history badge shows the same amount as the store's order total |
| History.QuantityCoversItems | src/pages/History.js:128-129 | when every quantity is at least 1, the total quantity is at least the item count, and equals it exactly when every quantity is 1 |
| Receipt.FallbackReceipt | src/pages/Receipt.jsx:39-51 | with stored orders, a receipt is built from the last one: 'Guest', 'N/A' and no items stand in for a missing customer, table and cart; the order time defaults to now; the total is the sum of the items' `qty * price`; with no orders there is no receipt |
| Receipt.FallbackUsesLatest | src/pages/Receipt.jsx:42-42 | earlier orders never reach the fallback receipt |
| Receipt.FallbackTotalIsOrderTotal | src/pages/Receipt.jsx:49-49 | the fallback total is the store's order total of the last order |
| Receipt.EffectRun | src/pages/Receipt.jsx:24-53 | with no receipt yet and stored orders, the fallback wins over receipt data in the address; once a receipt is shown, address data replaces it when there is some |
| Receipt.UrlDataShownFromSecondRun | src/pages/Receipt.jsx:24-53 | from the second run of the effect on, receipt data from the address is what is shown |
| Receipt.FallbackStays | src/pages/Receipt.jsx:39-53 | without address data, a fallback receipt once shown stays |
| Receipt.ReceiptTotals | src/pages/Receipt.jsx:202-210 | the GST is 5% of the subtotal and the grand total is the subtotal plus the GST, never below the subtotal for a non-negative total |
| Receipt.FallbackLinesAddUp | src/pages/Receipt.jsx:186-203 | on a fallback receipt the printed line amounts add up to the subtotal |
| HomeSample.FilteredDishesIsFilter | src/pages/Home.js:61-76 | the name search and then the category filter are one filter by their conjunction, in menu order |
| HomeSample.FilteredDishesMembers | src/pages/Home.js:61-76 | a dish is shown exactly when it is on the menu, its lower-cased name contains the lower-cased term (any name for an empty term), and it is in the chosen category (any for none) |
| HomeSample.ClearedFiltersShowAll | src/pages/Home.js:86-89 | after clearing the filters every dish is shown |
| HomeSample.CategoriesOf | src/pages/Home.js:54-54 | the category of each dish, in order |
| HomeSample.UniqueCategoriesSpec | src/pages/Home.js:54-54 | the category list names each category of the dishes exactly once, and no other, in order of first appearance |
| HomeSample.EveryCategorySelectsADish | src/pages/Home.js:54-72 | choosing any offered category shows at least one dish |
| HomeSample.ToggledOnShowsFavorite | src/pages/Home.js:172-172 | after the shared favourites toggle adds a menu dish, a sample dish of the same name is marked as a favourite |
| Home.ColumnOr | src/pages/Home.jsx:26-28 | a present, non-empty column is used, otherwise the fallback |
| Home.Transform | src/pages/Home.jsx:22-29 | a service row keeps its id, name and price and gets the default image, category 'other' and description 'Delicious dish' for missing columns, so none is empty |
| Home.LoadDishes | src/pages/Home.jsx:15-72 | a successful fetch yields the transformed rows in order; a failed one loads the three fallback dishes |
| Home.LoadKeepsIds | src/pages/Home.jsx:22-29 | rows with distinct ids give dishes with distinct ids |
| Home.FilteredDishesIsFilter | src/pages/Home.jsx:75-91 | the category filter and then the search are one filter by their conjunction, in menu order |
| Home.FilteredDishesMembers | src/pages/Home.jsx:75-91 | a dish is shown exactly when it is on the menu, in the chosen category (any for 'all'), and, for a non-blank term, its lower-cased name or description contains the lower-cased term |
| Home.ClearedFiltersShowAll | src/pages/Home.jsx:101-104 | after clearing the filters every dish is shown |
| Home.ShowAsFavorite | src/pages/Home.jsx:197-197 | a card is marked as a favourite exactly when a favourite has its id |
| Home.ToggleFlipsMark | src/pages/Home.jsx:197-197 | each press of the heart flips the card's mark |
| Home.CartQuantity | src/pages/Home.jsx:198-198 | a card shows 0 for a dish not in the cart, and otherwise the quantity of the first cart line of the dish |
| Home.CartQuantityIsQuantityOf | src/pages/Home.jsx:198-198 | on a cart with one line per dish, the card's count is the quantity the cart holds for the dish |
| Home.AddRaisesCount | src/pages/Home.jsx:198-198 | adding a dish to the cart raises its card's count by one |

## Left out

- Persistence as text: `JSON.stringify`/`JSON.parse` and the browser's storage object are not modelled. Each key is an `Option` field, `None` when it is absent; a value that fails to parse is not modelled.
- `getStorageSize`: it measures the serialised text of every storage key, and no serialised text is modelled.
- The DOM: rendering, popups, toasts, `alert`, focus and the dark-mode toggle. Where an operation ends in an alert, the model returns an outcome value instead.
- The `window.confirm` dialogs of the History and Kitchen pages: the model is the branch where the user confirms; declining changes nothing.
- Clocks and randomness are parameters, as described above. Date strings are instants in milliseconds and days are UTC day numbers. `toLocaleString`, `toLocaleDateString` and `formatDate` (time zones, locale formats) are not modelled.
- Number formatting: `toFixed(2)` and `parseFloat` are not modelled. Prices and quantities are integers, and GST and the completion rate are exact reals rather than rounded strings.
- `StorageAnalytics.CompletionRate`: stated as the exact ratio, not as the two-decimal string `toFixed(2)` returns.
- Case folding: `Text.Lower` lowers only the ASCII capitals `A`–`Z`, while JavaScript's `toLowerCase` also lowers non-ASCII capitals (`É`, `Ä`, Greek, Cyrillic). The case-insensitive searches therefore treat such text as case-sensitive: `StorageService.LocalStorageService.OrdersByCustomer`, `StorageService.LocalStorageService.SearchDishes`, `IndexPage.MenuPage.ShownDishes`, `Kitchen.SearchMatches`, `HomeSample.NameMatches` and `Home.TextMatches`.
- NaN: a non-numeric price or quantity (where JavaScript's `|| 0` would turn NaN into 0) is not modelled.
- A date string that does not parse: it is modelled only in Kitchen, as the `NaNDaysAgo` label. Elsewhere a missing date throws, which is modelled as `None` from `getRevenueByDate`.
- `Object.entries` key order: the popularity tally lists names in order of first appearance. JavaScript puts integer-like keys first, and the model does not.
- Order comparison in the table sort: `sort()` compares UTF-16 code units, and the model compares characters, which is the same for text in the Basic Multilingual Plane.
- The order and dish services (`apiService`): their network calls are not modelled. Each answer is an input: `Some` data or `None` for a failed request.
- The status update the kitchen sends before marking an order complete, and the delete it sends before deleting one: the model keeps the local update of the success path only.
- The error panel of src/pages/Home.jsx (lines 128-139): when the service cannot be reached, `Home.LoadDishes` gives the three fallback dishes, but the page sets its error and renders only the warning panel, so those dishes are never displayed. Rendering is not modelled, and the model stops at the loaded list.
- `setTimeout` in Home.js: the one-second simulated load is not modelled, and the page is modelled once loaded.
- The React effect cycle of the Receipt page: `Receipt.EffectRun` models one run, and the lemmas follow at most two runs. With receipt data in the address, each run stores a freshly parsed object, and because `receiptData` is one of the effect's dependencies (src/pages/Receipt.jsx:53) the effect runs again after every run. The model compares receipts by value, so it sees that state as settled and does not capture the repeated re-rendering.
- The Kitchen order `index` field and the History order `index` field: the Kitchen one is not modelled. The History one is the row number that a `Selection` carries.
- A Kitchen order's table is held as text. The source's optional chaining on `order.table` is not modelled, because the table filter compares it as a string.
- The Kitchen header figures (src/pages/Kitchen.js:338-358): the pending and completed counts and the revenue are not modelled. The revenue would throw on a locally stored order without a cart, and so would the per-order total `calculateTotal(order.cart)` on each order card (src/pages/Kitchen.js:501) and in the details pane (src/pages/Kitchen.js:534); the model has `Kitchen.CalculateTotal` over a cart that is there.
- Different names for the same thing across pages: index.js and the store call the quantity `qty`, while the React pages call it `quantity`. Each module uses its own source's name rather than reconciling them.
- Order position: App.js puts new orders first, while Receipt.jsx takes the last stored order. Each is modelled as its own source writes it.
- src/pages/Home.jsx line 8 (`useState` with a missing call) does not parse as written. It is modelled as the intended `useState([])`.
- The Navbar and other components outside the pages listed above are not part of this model. One consequence is not captured: the Navbar's cart buttons pass `item.name` to App's `updateCartItemQuantity` and `removeFromCart`, which compare it with `item.id`, so those buttons match no line of a cart of menu dishes.
- The default arguments are modelled as the two methods `GetPopularDishesDefault` and `GetRevenueByDateDefault`; nothing in the pages calls either getter.
- `IndexPage.MenuPage.AddToCart` and `IndexPage.MenuPage.AddToFavorite` require an index inside the catalogue, which every button passes (`IndexPage.ButtonIndexInCatalogue`). For an index with no dish the source is not modelled: on an empty cart it pushes a line holding only `qty: 1` before the popup throws; on empty favourites it stores an entry holding only `dateAdded` and reports success; otherwise it throws inside the search before writing anything.
- The sample dishes of src/pages/Home.js have no `id`, but App's `addToCart` and `addToFavorites` match dishes by `id`. In JavaScript `undefined === undefined`, so every sample dish after the first is merged into the first cart line, and favouriting a second sample dish removes the first one. The model's menu dishes always carry an integer id, so this merging is not captured: `HomeSample.ToggledOnShowsFavorite` is stated for a menu dish with an id.

## Findings

| source | as written | input that shows it | evidently intended | confidence | as-written member | corrected member |
|---|---|---|---|---|---|---|
| index.js:53-72 | the buttons of the filtered list pass their position `i` in the filtered list, but `addToCart(i)` and `addToFavorite(i)` read `dishes[i]` of the whole catalogue | catalogue [Paneer Tikka (North Indian), Masala Dosa (South Indian)], category "South Indian" selected: the only button shown is for Masala Dosa, and it adds Paneer Tikka | the button adds the dish it is shown on | not executed | IndexPage.ButtonIndexMismatch | IndexPage.ShownButtonDish |
| src/pages/History.js:40-50 | deleting a row clears the selection only when the selection's recorded row number equals the deleted index; rows above the selection shift its order up without updating that number | three orders, the third selected (row 2); delete row 0, then row 1: the third order is deleted but the details pane still shows it | the selection follows its order, and is cleared when that order is deleted | not executed | History.DeleteLeavesStaleSelection | History.DeleteOrderTracked |
