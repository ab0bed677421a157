/** The receipt screen: the receipt it shows when the address carries no
    receipt data, built from the latest stored order, and the subtotal, GST
    and grand total printed under the items. */
module Receipt {
  import opened Wrappers
  import opened Seqs
  import opened Text
  import opened StorageData

  /** When the order was placed, or, for an order without a time, the moment the receipt was built. */
  datatype ReceiptTime = OrderedAt(time: Instant) | BuiltAt(now: Instant)

  datatype ReceiptData = ReceiptData(
    orderId: string, customerName: string, tableNo: string,
    items: seq<QtyLine>, orderTime: ReceiptTime, total: int)

  /** The receipt made from `orders[orders.length - 1]`: 'Guest', 'N/A' and an
      empty item list stand in for a missing customer, table and cart, and the
      total is the order's `qty * price` sum (0 without a cart). */
  function FallbackReceipt(orders: seq<Order>, now: nat): (r: Option<ReceiptData>)
    ensures r.None? <==> orders == []
    ensures r.Some? ==>
      var last := orders[|orders| - 1];
      && r.value.orderId == "ORD-" + NatToString(now)
      && (last.customer.Some? && last.customer.value != [] ==> r.value.customerName == last.customer.value)
      && (last.customer.None? || last.customer.value == [] ==> r.value.customerName == "Guest")
      && (last.table.Some? && last.table.value != [] ==> r.value.tableNo == last.table.value)
      && (last.table.None? || last.table.value == [] ==> r.value.tableNo == "N/A")
      && r.value.items == (if last.cart.Some? then last.cart.value else [])
      && r.value.orderTime == (if last.time.Some? then OrderedAt(last.time.value) else BuiltAt(now))
      && r.value.total == Sum(r.value.items, LineAmount)
  {
    if orders == [] then None
    else
      var last := orders[|orders| - 1];
      var items := last.cart.GetOr([]);
      Some(ReceiptData(
        "ORD-" + NatToString(now),
        OrElse(last.customer.GetOr([]), "Guest"),
        OrElse(last.table.GetOr([]), "N/A"),
        items,
        if last.time.Some? then OrderedAt(last.time.value) else BuiltAt(now),
        if last.cart.Some? then CartRevenue(last.cart.value) else 0))
  }

  /** Only the latest order matters: earlier orders never reach the receipt. */
  lemma FallbackUsesLatest(earlier: seq<Order>, latest: Order, now: nat)
    ensures FallbackReceipt(earlier + [latest], now) == FallbackReceipt([latest], now)
  {
    assert (earlier + [latest])[|earlier + [latest]| - 1] == latest;
  }

  /** The fallback total is what the store's statistics count for the same order. */
  lemma FallbackTotalIsOrderTotal(orders: seq<Order>, now: nat)
    requires orders != []
    ensures FallbackReceipt(orders, now).value.total == OrderTotal(orders[|orders| - 1])
  {
  }

  /** One run of the mount effect. `urlData` is the `data` parameter of the
      address once decoded (None when it is absent or does not parse) and
      `current` the receipt of the render the effect runs after. The run can
      queue two updates, and the later one, the fallback, wins. */
  function EffectRun(urlData: Option<ReceiptData>, current: Option<ReceiptData>, orders: seq<Order>, now: nat): (r: Option<ReceiptData>)
    ensures current.None? && orders != [] ==> r == FallbackReceipt(orders, now)
    ensures current.Some? ==> r == (if urlData.Some? then urlData else current)
    ensures current.None? && orders == [] ==> r == urlData
  {
    var fromUrl := if urlData.Some? then urlData else current;
    if current.None? && orders != [] then FallbackReceipt(orders, now) else fromUrl
  }

  /** The effect runs again whenever the receipt changes; from the second run
      on, receipt data that came with the address is what is shown. */
  lemma UrlDataShownFromSecondRun(d: ReceiptData, orders: seq<Order>, now: nat, later: nat)
    ensures EffectRun(Some(d), EffectRun(Some(d), None, orders, now), orders, later) == Some(d)
  {
  }

  /** Without receipt data in the address, a fallback receipt once shown stays. */
  lemma FallbackStays(orders: seq<Order>, now: nat, later: nat)
    requires orders != []
    ensures EffectRun(None, EffectRun(None, None, orders, now), orders, later) == FallbackReceipt(orders, now)
  {
  }

  datatype Totals = Totals(subtotal: real, gst: real, grandTotal: real)

  /** The total section: `total`, `total * 0.05` and `total * 1.05`. */
  function ReceiptTotals(d: ReceiptData): (r: Totals)
    ensures r.subtotal == d.total as real
    ensures r.gst == r.subtotal * GstRate
    ensures r.grandTotal == r.subtotal + r.gst
    ensures d.total >= 0 ==> r.subtotal <= r.grandTotal
  {
    Totals(d.total as real, d.total as real * 0.05, d.total as real * 1.05)
  }

  /** On a fallback receipt the printed line amounts `qty * price` add up to the subtotal. */
  lemma FallbackLinesAddUp(orders: seq<Order>, now: nat)
    requires orders != []
    ensures var d := FallbackReceipt(orders, now).value;
      ReceiptTotals(d).subtotal == Sum(d.items, LineAmount) as real
  {
  }
}
