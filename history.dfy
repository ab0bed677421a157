/** The order-history screen: the saved orders, the order selected for the
    details pane, deleting one order by its row, clearing the history, and
    the totals each order shows. */
module History {
  import opened Wrappers
  import opened Seqs
  import opened StorageData

  /** `{ ...order, index }`: the order a click selected, with its row number. */
  datatype Selection = Selection(order: Order, index: int)

  datatype HistoryPage = HistoryPage(orders: seq<Order>, selected: Option<Selection>)

  /** The details pane shows the order that is on the row it names. */
  predicate SelectionValid(p: HistoryPage) {
    p.selected.Some? ==>
      0 <= p.selected.value.index < |p.orders| && p.orders[p.selected.value.index] == p.selected.value.order
  }

  /** Mounting: the saved list when the `orders` key is present, otherwise none; nothing selected. */
  function Mount(saved: Option<seq<Order>>): (r: HistoryPage)
    ensures r.orders == (if saved.Some? then saved.value else [])
    ensures r.selected.None? && SelectionValid(r)
  {
    HistoryPage(saved.GetOr([]), None)
  }

  /** Clicking row `i` of the list. */
  function SelectOrder(p: HistoryPage, i: nat): (r: HistoryPage)
    requires i < |p.orders|
    ensures r.orders == p.orders && r.selected.Some? && r.selected.value.order == p.orders[i]
    ensures r.selected.value.index == i
    ensures SelectionValid(r)
  {
    HistoryPage(p.orders, Some(Selection(p.orders[i], i)))
  }

  /** `s.filter((_, index) => index !== i)` */
  function RemoveAt<T>(s: seq<T>, i: int): (r: seq<T>)
    ensures 0 <= i < |s| ==> |r| == |s| - 1
    ensures 0 <= i < |s| ==> forall k :: 0 <= k < i ==> r[k] == s[k]
    ensures 0 <= i < |s| ==> forall k :: i <= k < |r| ==> r[k] == s[k + 1]
    ensures !(0 <= i < |s|) ==> r == s
  {
    if 0 <= i < |s| then s[..i] + s[i + 1..] else s
  }

  /** Removing one row keeps the other rows in their order. */
  lemma {:induction false} RemoveAtSubsequence<T>(s: seq<T>, i: int)
    ensures Subsequence(RemoveAt(s, i), s)
  {
    if !(0 <= i < |s|) {
      SubsequenceRefl(s);
    } else if i == 0 {
      SubsequenceRefl(s[1..]);
      assert RemoveAt(s, i) == s[1..];
    } else {
      RemoveAtSubsequence(s[1..], i - 1);
      var r := RemoveAt(s, i);
      assert r[0] == s[0];
      assert r[1..] == RemoveAt(s[1..], i - 1);
    }
  }

  /** `deleteOrder(orderIndex)` as written: the row goes, and the selection is
      cleared when its recorded row number equals `orderIndex`. */
  function DeleteOrder(p: HistoryPage, i: int): (r: HistoryPage)
    ensures r.orders == RemoveAt(p.orders, i)
    ensures r.selected.None? <==> p.selected.None? || p.selected.value.index == i
    ensures r.selected.Some? ==> r.selected == p.selected
  {
    var selected := if p.selected.Some? && p.selected.value.index == i then None else p.selected;
    HistoryPage(RemoveAt(p.orders, i), selected)
  }

  /** While nothing above the selected row is deleted, the row numbers stay right. */
  lemma DeleteBelowSelectionKeepsItValid(p: HistoryPage, i: int)
    requires SelectionValid(p)
    requires p.selected.Some? ==> p.selected.value.index < i
    ensures SelectionValid(DeleteOrder(p, i))
  {
  }

  function SampleOrder(id: int): Order {
    Order(id, Some("Guest"), Some("1"), Some([]), None, None, None, false)
  }

  /** Deleting a row above the selected one leaves a stale row number: with
      three orders and the third selected, deleting the first and then the
      (new) second row deletes the selected order yet it stays on display. */
  lemma DeleteLeavesStaleSelection()
    ensures var p0 := SelectOrder(HistoryPage([SampleOrder(1), SampleOrder(2), SampleOrder(3)], None), 2);
            var p1 := DeleteOrder(p0, 0);
            var p2 := DeleteOrder(p1, 1);
            SelectionValid(p0) && !SelectionValid(p1)
            && SampleOrder(3) !in p2.orders && p2.selected == Some(Selection(SampleOrder(3), 2))
  {
    var p0 := SelectOrder(HistoryPage([SampleOrder(1), SampleOrder(2), SampleOrder(3)], None), 2);
    var p1 := DeleteOrder(p0, 0);
    assert p1.orders == [SampleOrder(2), SampleOrder(3)];
    var p2 := DeleteOrder(p1, 1);
    assert p2.orders == [SampleOrder(2)];
  }

  /** `deleteOrder` with the selection following its order: cleared when its
      row goes, moved up one when a row above it goes. */
  function DeleteOrderTracked(p: HistoryPage, i: int): (r: HistoryPage)
    ensures r.orders == RemoveAt(p.orders, i)
    ensures SelectionValid(p) ==> SelectionValid(r)
    ensures SelectionValid(p) && 0 <= i < |p.orders| ==>
      (r.selected.None? <==> p.selected.None? || p.selected.value.index == i)
    ensures r.selected.Some? ==> p.selected.Some? && r.selected.value.order == p.selected.value.order
  {
    match p.selected
    case None => HistoryPage(RemoveAt(p.orders, i), None)
    case Some(sel) =>
      if sel.index == i then HistoryPage(RemoveAt(p.orders, i), None)
      else if 0 <= i < sel.index then HistoryPage(RemoveAt(p.orders, i), Some(Selection(sel.order, sel.index - 1)))
      else HistoryPage(RemoveAt(p.orders, i), p.selected)
  }

  /** With the selection tracked, the details pane never shows a deleted row:
      if the selected order sits on row `i`, deleting row `i` clears it. */
  lemma TrackedDeleteClearsDeletedSelection(p: HistoryPage, i: nat)
    requires SelectionValid(p) && p.selected.Some? && p.selected.value.index == i
    ensures DeleteOrderTracked(p, i).selected.None?
  {
  }

  /** `clearHistory()`: no orders and nothing selected. */
  function ClearHistory(p: HistoryPage): (r: HistoryPage)
    ensures r.orders == [] && r.selected.None?
    ensures SelectionValid(r)
  {
    HistoryPage([], None)
  }

  /** `calculateTotal(cart)`: the sum of `qty * price` over the lines. */
  function CalculateTotal(cart: seq<QtyLine>): (r: int)
    ensures cart == [] ==> r == 0
  {
    Sum(cart, LineAmount)
  }

  /** A history badge shows the amount the store's statistics count for that order. */
  lemma CalculateTotalIsOrderTotal(o: Order)
    requires o.cart.Some?
    ensures CalculateTotal(o.cart.value) == OrderTotal(o)
  {
  }

  /** The "total quantity" figure `cart.reduce((sum, item) => sum + item.qty, 0)`. */
  function TotalQuantity(cart: seq<QtyLine>): (r: int)
    ensures cart == [] ==> r == 0
  {
    Sum(cart, LineQty)
  }

  /** With every line of quantity at least one, the total quantity is at
      least the item count `cart.length`, and equal to it exactly when every
      quantity is one. */
  lemma {:induction false} QuantityCoversItems(cart: seq<QtyLine>)
    requires forall i :: 0 <= i < |cart| ==> cart[i].qty >= 1
    ensures TotalQuantity(cart) >= |cart|
    ensures TotalQuantity(cart) == |cart| <==> forall i :: 0 <= i < |cart| ==> cart[i].qty == 1
  {
    if cart != [] {
      var init := cart[..|cart| - 1];
      assert forall i :: 0 <= i < |init| ==> init[i] == cart[i];
      QuantityCoversItems(init);
      assert TotalQuantity(cart) == TotalQuantity(init) + cart[|cart| - 1].qty;
    }
  }
}
