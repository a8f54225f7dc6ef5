/** The per-item rules of the order aggregator: how a requested line item
    becomes an item row (quantity and price defaulting), and how an order's
    total is accumulated from its rows. */
module OrderSerializers {
  import opened OrderModels

  /** One requested line item after field validation: the product row it
      refers to, and the optional quantity and price override. */
  datatype ItemData = ItemData(product: Product, quantity: Option<nat>, price: Option<int>)

  /** The validated input of a create: `items` and `status` may be absent. */
  datatype CreateData = CreateData(customer: CustomerId, status: Option<Status>, items: Option<seq<ItemData>>)

  /** The validated input of an update: every key may be absent. */
  datatype UpdateData = UpdateData(customer: Option<CustomerId>, status: Option<Status>, items: Option<seq<ItemData>>)

  /** Python truthiness of an optional decimal: absent and zero are both false. */
  predicate Truthy(price: Option<int>) {
    price.Some? && price.value != 0
  }

  /** The quantity of an item: the given one, even 0, or 1 when absent. */
  function ResolveQuantity(quantity: Option<nat>): (n: nat)
    ensures quantity.None? ==> n == 1
    ensures quantity.Some? ==> n == quantity.value
  {
    quantity.GetOr(DefaultQuantity)
  }

  /** The unit price of an item: a truthy override, else the catalog price.
      An override of zero is indistinguishable from no override and is
      replaced by the catalog price. */
  function ResolvePrice(d: ItemData): (p: int)
    ensures Truthy(d.price) ==> p == d.price.value
    ensures !Truthy(d.price) ==> p == d.product.price
    ensures d.price == Some(0) ==> p == d.product.price
    ensures d.price.Some? && p != d.price.value ==> d.price.value == 0
    ensures FitsAmount(d.product.price) && (d.price.Some? ==> FitsAmount(d.price.value)) ==> FitsAmount(p)
  {
    if Truthy(d.price) then d.price.value else d.product.price
  }

  /** The item row created for one request. */
  function MakeItem(id: ItemId, order: OrderId, d: ItemData): OrderItem {
    OrderItem(id, order, d.product.id, ResolveQuantity(d.quantity), ResolvePrice(d))
  }

  /** The rows created for the requests `ds`, the k-th with identifier
      `firstId + k`. */
  function NewItems(order: OrderId, firstId: ItemId, ds: seq<ItemData>): seq<OrderItem> {
    seq(|ds|, k requires 0 <= k < |ds| => MakeItem(firstId + k, order, ds[k]))
  }

  /** One row per request, in request order, each owned by `order`, with
      consecutive identifiers from `firstId`, the requested product and the
      resolved quantity and price. */
  lemma NewItemsAt(order: OrderId, firstId: ItemId, ds: seq<ItemData>)
    ensures |NewItems(order, firstId, ds)| == |ds|
    ensures forall k :: 0 <= k < |ds| ==>
      var item := NewItems(order, firstId, ds)[k];
      && item.id == firstId + k
      && item.order == order
      && item.product == ds[k].product.id
      && item.quantity == ResolveQuantity(ds[k].quantity)
      && item.price == ResolvePrice(ds[k])
  {
  }

  /** The sum of the line totals of some item rows, accumulated front to back. */
  function SumLineTotals(items: seq<OrderItem>): int
    decreases |items|
  {
    if items == [] then 0
    else SumLineTotals(items[..|items| - 1]) + items[|items| - 1].LineTotal()
  }

  /** Reference definition of an order's total straight from its requests:
      the sum of resolved quantity times resolved price. */
  function RequestedTotal(ds: seq<ItemData>): int
    decreases |ds|
  {
    if ds == [] then 0
    else ResolveQuantity(ds[0].quantity) * ResolvePrice(ds[0]) + RequestedTotal(ds[1..])
  }

  /** The `items` key popped with an empty default, as create does. */
  function RequestedItems(items: Option<seq<ItemData>>): (ds: seq<ItemData>)
    ensures items.None? ==> ds == []
    ensures items.Some? ==> ds == items.value
  {
    items.GetOr([])
  }

  lemma {:induction false} SumLineTotalsAppend(a: seq<OrderItem>, b: seq<OrderItem>)
    ensures SumLineTotals(a + b) == SumLineTotals(a) + SumLineTotals(b)
    decreases |b|
  {
    if b == [] {
      assert a + b == a;
    } else {
      var init := b[..|b| - 1];
      assert (a + b)[..|a + b| - 1] == a + init;
      SumLineTotalsAppend(a, init);
    }
  }

  lemma SumLineTotalsSnoc(items: seq<OrderItem>, item: OrderItem)
    ensures SumLineTotals(items + [item]) == SumLineTotals(items) + item.LineTotal()
  {
    assert (items + [item])[..|items|] == items;
  }

  /** With no negative prices, a total is never negative. */
  lemma {:induction false} SumLineTotalsNonNegative(items: seq<OrderItem>)
    requires forall i :: 0 <= i < |items| ==> items[i].price >= 0
    ensures SumLineTotals(items) >= 0
    decreases |items|
  {
    if items != [] {
      SumLineTotalsNonNegative(items[..|items| - 1]);
    }
  }

  lemma {:induction false} RequestedTotalSnoc(ds: seq<ItemData>, d: ItemData)
    ensures RequestedTotal(ds + [d]) == RequestedTotal(ds) + ResolveQuantity(d.quantity) * ResolvePrice(d)
    decreases |ds|
  {
    if ds != [] {
      assert (ds + [d])[1..] == ds[1..] + [d];
      RequestedTotalSnoc(ds[1..], d);
    }
  }

  /** The sum of the line totals of the created rows is the requested total,
      whatever order and identifiers the rows get. */
  lemma {:induction false} NewItemsTotal(order: OrderId, firstId: ItemId, ds: seq<ItemData>)
    ensures SumLineTotals(NewItems(order, firstId, ds)) == RequestedTotal(ds)
    decreases |ds|
  {
    if ds != [] {
      var init, last := ds[..|ds| - 1], ds[|ds| - 1];
      NewItemsTotal(order, firstId, init);
      var rows := NewItems(order, firstId, ds);
      assert rows[..|rows| - 1] == NewItems(order, firstId, init);
      RequestedTotalSnoc(init, last);
      assert init + [last] == ds;
    }
  }

  /** Both amounts stay within the decimal column, yet the total of two items
      does not: the total is never checked against its column's precision. */
  lemma TotalCanExceedPrecision()
    ensures var ds := [ItemData(Product(0, AmountBound - 1), Some(2), None)];
      && FitsAmount(ResolvePrice(ds[0]))
      && !FitsAmount(RequestedTotal(ds))
  {
  }

  lemma NewItemsSnoc(order: OrderId, firstId: ItemId, ds: seq<ItemData>, i: nat)
    requires i < |ds|
    ensures NewItems(order, firstId, ds[..i + 1]) == NewItems(order, firstId, ds[..i]) + [MakeItem(firstId + i, order, ds[i])]
  {
    assert ds[..i + 1][..i] == ds[..i];
  }
}
