/** The order and item tables and the aggregator's two operations on them:
    create an order with its nested items, and update an order, replacing
    its whole item set when items are given. `Created`, `Replaced` and
    `Updated` say what each operation leaves in the tables; the lemmas state
    what that means; `OrderStore` performs the operations step by step. */
module OrderTables {
  import opened OrderModels
  import opened ItemTable
  import opened OrderSerializers

  /** The two tables and the next identifiers each one hands out. */
  datatype Tables = Tables(orders: map<OrderId, Order>, items: seq<OrderItem>, nextOrderId: OrderId, nextItemId: ItemId)

  /** Every order's total is the sum of the line totals of its items. */
  predicate TotalsMatch(orders: map<OrderId, Order>, rows: seq<OrderItem>) {
    forall o :: o in orders ==> orders[o].totalAmount == SumLineTotals(ItemsOf(rows, o))
  }

  /** The shape the key counters and foreign keys give the tables: order
      identifiers are below the next one, and the item table is chained over
      the existing orders (every item belongs to one, item identifiers
      ascend). */
  predicate WellFormed(t: Tables) {
    && (forall o :: o in t.orders ==> o < t.nextOrderId)
    && Chained(t.orders.Keys, t.items, t.nextItemId)
  }

  /** The invariant of the tables: well formed, and every total matches its
      items. */
  predicate Consistent(t: Tables) {
    WellFormed(t) && TotalsMatch(t.orders, t.items)
  }

  /** The tables after a create: a new order row with the given or default
      status, one item row per requested item, and the total of those rows. */
  function Created(t: Tables, data: CreateData): Tables {
    var id := t.nextOrderId;
    var created := NewItems(id, t.nextItemId, RequestedItems(data.items));
    Tables(t.orders[id := NewOrder(data.customer, data.status).(totalAmount := SumLineTotals(created))],
           t.items + created, id + 1, t.nextItemId + |created|)
  }

  /** The tables after replacing the items of order `id`: its old rows are
      deleted, the new ones appended, and its total set to theirs. */
  function Replaced(t: Tables, id: OrderId, ds: seq<ItemData>): Tables
    requires id in t.orders
  {
    var created := NewItems(id, t.nextItemId, ds);
    t.(orders := t.orders[id := t.orders[id].(totalAmount := SumLineTotals(created))],
       items := WithoutOrder(t.items, id) + created,
       nextItemId := t.nextItemId + |ds|)
  }

  /** The tables after an update of order `id`: status and customer fall back
      to their current values, and the items are replaced only when given. */
  function Updated(t: Tables, id: OrderId, data: UpdateData): Tables
    requires id in t.orders
  {
    var o := t.orders[id];
    var saved := t.(orders := t.orders[id := o.(status := data.status.GetOr(o.status),
                                                 customer := data.customer.GetOr(o.customer))]);
    if data.items.Some? then Replaced(saved, id, data.items.value) else saved
  }

  /** Writing order `id` with the total of its new items, while no other
      order's items change, keeps every total matching. */
  lemma WriteKeepsTotals(orders: map<OrderId, Order>, rows: seq<OrderItem>, rows': seq<OrderItem>, id: OrderId, o: Order)
    requires forall p :: p in orders && p != id ==> orders[p].totalAmount == SumLineTotals(ItemsOf(rows, p))
    requires forall p :: p != id ==> ItemsOf(rows', p) == ItemsOf(rows, p)
    requires o.totalAmount == SumLineTotals(ItemsOf(rows', id))
    ensures TotalsMatch(orders[id := o], rows')
  {
    forall p | p in orders[id := o]
      ensures orders[id := o][p].totalAmount == SumLineTotals(ItemsOf(rows', p))
    {
      if p != id {
        assert ItemsOf(rows', p) == ItemsOf(rows, p);
      }
    }
  }

  /** Appending the rows created for a known order keeps the table chained. */
  lemma {:induction false} NewItemsChained(keys: set<OrderId>, rows: seq<OrderItem>, start: ItemId, order: OrderId, ds: seq<ItemData>)
    requires Chained(keys, rows, start) && order in keys
    ensures Chained(keys, rows + NewItems(order, start, ds), start + |ds|)
    decreases |ds|
  {
    if ds == [] {
      assert rows + NewItems(order, start, ds) == rows;
    } else {
      var n := |ds| - 1;
      var init := ds[..n];
      NewItemsChained(keys, rows, start, order, init);
      NewItemsSnoc(order, start, ds, n);
      assert ds[..n + 1] == ds;
      var item := MakeItem(start + n, order, ds[n]);
      assert rows + NewItems(order, start, ds) == (rows + NewItems(order, start, init)) + [item];
      ChainedSnoc(keys, rows + NewItems(order, start, init), start + n, item);
    }
  }

  /** A create keeps the tables consistent. */
  lemma CreatedConsistent(t: Tables, data: CreateData)
    requires Consistent(t)
    ensures Consistent(Created(t, data))
  {
    var id, ds := t.nextOrderId, RequestedItems(data.items);
    var created := NewItems(id, t.nextItemId, ds);
    var t' := Created(t, data);
    assert t'.orders.Keys == t.orders.Keys + {id};
    assert Chained(t'.orders.Keys, t'.items, t'.nextItemId) by {
      ChainedWeaken(t.orders.Keys, t'.orders.Keys, t.items, t.nextItemId, t.nextItemId);
      NewItemsChained(t'.orders.Keys, t.items, t.nextItemId, id, ds);
    }
    assert TotalsMatch(t'.orders, t'.items) by {
      ChainedUnknownOrder(t.orders.Keys, t.items, t.nextItemId, id);
      AppendNewOrderRows(t.items, created, id);
      WriteKeepsTotals(t.orders, t.items, t'.items, id, t'.orders[id]);
    }
  }

  /** What a create leaves: a new order, not there before, whose items are
      exactly the rows made from the requests, in request order, whose total
      is the requested total, and whose status is the given one or pending;
      no other order and no other order's items change. */
  lemma CreatedOrder(t: Tables, data: CreateData)
    requires WellFormed(t)
    ensures var id, t' := t.nextOrderId, Created(t, data);
      && id !in t.orders
      && t'.orders.Keys == t.orders.Keys + {id}
      && ItemsOf(t'.items, id) == NewItems(id, t.nextItemId, RequestedItems(data.items))
      && t'.orders[id].totalAmount == RequestedTotal(RequestedItems(data.items))
      && t'.orders[id].status == data.status.GetOr(Pending)
      && t'.orders[id].customer == data.customer
      && (forall o :: o in t.orders ==> t'.orders[o] == t.orders[o])
      && (forall o :: o != id ==> ItemsOf(t'.items, o) == ItemsOf(t.items, o))
  {
    var id, ds, t' := t.nextOrderId, RequestedItems(data.items), Created(t, data);
    var created := NewItems(id, t.nextItemId, ds);
    assert ItemsOf(t'.items, id) == created
      && (forall o :: o != id ==> ItemsOf(t'.items, o) == ItemsOf(t.items, o)) by {
      ChainedUnknownOrder(t.orders.Keys, t.items, t.nextItemId, id);
      AppendNewOrderRows(t.items, created, id);
    }
    assert t'.orders[id].totalAmount == RequestedTotal(ds) by {
      NewItemsTotal(id, t.nextItemId, ds);
    }
  }

  /** A create with no items, or an empty list, makes an order with no items
      and total 0. */
  lemma CreatedEmpty(t: Tables, data: CreateData)
    requires WellFormed(t) && (data.items.None? || data.items == Some([]))
    ensures ItemsOf(Created(t, data).items, t.nextOrderId) == []
    ensures Created(t, data).orders[t.nextOrderId].totalAmount == 0
  {
    CreatedOrder(t, data);
  }

  /** What replacing the items of order `id` leaves: the order holds exactly
      the new rows, none of the old ones, with their total alone; no other
      order and no other order's items change. */
  lemma ReplacedOrder(t: Tables, id: OrderId, ds: seq<ItemData>)
    requires id in t.orders
    ensures var t' := Replaced(t, id, ds);
      && t'.orders.Keys == t.orders.Keys
      && ItemsOf(t'.items, id) == NewItems(id, t.nextItemId, ds)
      && t'.orders[id].totalAmount == RequestedTotal(ds)
      && (forall o :: o in t.orders && o != id ==> t'.orders[o] == t.orders[o])
      && (forall o :: o != id ==> ItemsOf(t'.items, o) == ItemsOf(t.items, o))
  {
    ReplaceOrderRows(t.items, NewItems(id, t.nextItemId, ds), id);
    NewItemsTotal(id, t.nextItemId, ds);
  }

  /** Replacing an order's items keeps the tables consistent. */
  lemma ReplacedConsistent(t: Tables, id: OrderId, ds: seq<ItemData>)
    requires Consistent(t) && id in t.orders
    ensures Consistent(Replaced(t, id, ds))
  {
    var t' := Replaced(t, id, ds);
    assert t'.orders.Keys == t.orders.Keys;
    assert Chained(t'.orders.Keys, t'.items, t'.nextItemId) by {
      WithoutOrderChained(t.orders.Keys, t.items, t.nextItemId, id);
      NewItemsChained(t.orders.Keys, WithoutOrder(t.items, id), t.nextItemId, id, ds);
    }
    assert TotalsMatch(t'.orders, t'.items) by {
      ReplaceOrderRows(t.items, NewItems(id, t.nextItemId, ds), id);
      WriteKeepsTotals(t.orders, t.items, t'.items, id, t'.orders[id]);
    }
  }

  /** An update keeps the tables consistent. */
  lemma UpdatedConsistent(t: Tables, id: OrderId, data: UpdateData)
    requires Consistent(t) && id in t.orders
    ensures Consistent(Updated(t, id, data))
  {
    var o := t.orders[id];
    var saved := t.(orders := t.orders[id := o.(status := data.status.GetOr(o.status),
                                                 customer := data.customer.GetOr(o.customer))]);
    assert saved.orders.Keys == t.orders.Keys;
    WriteKeepsTotals(t.orders, t.items, t.items, id, saved.orders[id]);
    if data.items.Some? {
      ReplacedConsistent(saved, id, data.items.value);
    }
  }

  /** What an update leaves: status and customer are the given ones or the
      current ones; without items, the item table and the total stay as they
      were; with items, even none, the order holds exactly the new rows and
      their total alone; no other order and no other order's items change. */
  lemma UpdatedOrder(t: Tables, id: OrderId, data: UpdateData)
    requires id in t.orders
    ensures var t' := Updated(t, id, data);
      && t'.orders.Keys == t.orders.Keys
      && t'.orders[id].status == data.status.GetOr(t.orders[id].status)
      && t'.orders[id].customer == data.customer.GetOr(t.orders[id].customer)
      && (data.items.None? ==> t'.items == t.items && t'.orders[id].totalAmount == t.orders[id].totalAmount)
      && (data.items.Some? ==>
            && ItemsOf(t'.items, id) == NewItems(id, t.nextItemId, data.items.value)
            && t'.orders[id].totalAmount == RequestedTotal(data.items.value))
      && (forall o :: o in t.orders && o != id ==> t'.orders[o] == t.orders[o])
      && (forall o :: o != id ==> ItemsOf(t'.items, o) == ItemsOf(t.items, o))
  {
    if data.items.Some? {
      var o := t.orders[id];
      var saved := t.(orders := t.orders[id := o.(status := data.status.GetOr(o.status),
                                                   customer := data.customer.GetOr(o.customer))]);
      ReplacedOrder(saved, id, data.items.value);
    }
  }

  /** The tables in memory, with the aggregator's create and update. */
  class OrderStore {
    var orders: map<OrderId, Order>
    var items: seq<OrderItem>
    var nextOrderId: OrderId
    var nextItemId: ItemId

    function State(): Tables
      reads this
    {
      Tables(orders, items, nextOrderId, nextItemId)
    }

    ghost predicate Valid()
      reads this
    {
      Consistent(State())
    }

    constructor ()
      ensures Valid()
      ensures State() == Tables(map[], [], 0, 0)
    {
      orders := map[];
      items := [];
      nextOrderId := 0;
      nextItemId := 0;
    }

    /** Creates one item row per request for `order`, in request order, and
        returns the running total of their line totals. */
    method CreateItems(order: OrderId, ds: seq<ItemData>) returns (total: int)
      modifies this`items, this`nextItemId
      ensures items == old(items) + NewItems(order, old(nextItemId), ds)
      ensures nextItemId == old(nextItemId) + |ds|
      ensures total == SumLineTotals(NewItems(order, old(nextItemId), ds))
      ensures total == RequestedTotal(ds)
    {
      ghost var before, start := items, nextItemId;
      total := 0;
      var i := 0;
      while i < |ds|
        invariant 0 <= i <= |ds|
        invariant items == before + NewItems(order, start, ds[..i])
        invariant nextItemId == start + i
        invariant total == SumLineTotals(NewItems(order, start, ds[..i]))
        decreases |ds| - i
      {
        var d := ds[i];
        var quantity := ResolveQuantity(d.quantity);
        var price := if Truthy(d.price) then d.price.value else d.product.price;
        total := total + quantity * price;
        var item := OrderItem(nextItemId, order, d.product.id, quantity, price);
        ghost var was := NewItems(order, start, ds[..i]);
        assert item == MakeItem(start + i, order, d);
        NewItemsSnoc(order, start, ds, i);
        SumLineTotalsSnoc(was, item);
        assert items + [item] == before + (was + [item]);
        items := items + [item];
        nextItemId := nextItemId + 1;
        i := i + 1;
      }
      assert ds[..|ds|] == ds;
      NewItemsTotal(order, start, ds);
    }

    /** Creates an order from validated data: the order row with the given or
        default status, then its items, then its total. */
    method Create(data: CreateData) returns (id: OrderId)
      requires Valid()
      modifies this
      ensures Valid()
      ensures id == old(nextOrderId)
      ensures State() == Created(old(State()), data)
    {
      ghost var was := State();
      var ds := RequestedItems(data.items);
      id := nextOrderId;
      var order := NewOrder(data.customer, data.status);
      orders := orders[id := order];
      nextOrderId := nextOrderId + 1;
      var total := CreateItems(id, ds);
      orders := orders[id := order.(totalAmount := total)];
      assert orders == was.orders[id := order.(totalAmount := total)];
      assert State() == Created(was, data);
      CreatedConsistent(was, data);
    }

    /** Deletes the items of order `id`, creates the requested ones in their
        place and sets the order's total to theirs alone. */
    method ReplaceItems(id: OrderId, ds: seq<ItemData>)
      requires Valid() && id in orders
      modifies this
      ensures Valid()
      ensures State() == Replaced(old(State()), id, ds)
    {
      ghost var was := State();
      items := WithoutOrder(items, id);
      var total := CreateItems(id, ds);
      orders := orders[id := orders[id].(totalAmount := total)];
      assert State() == Replaced(was, id, ds);
      ReplacedConsistent(was, id, ds);
    }

    /** Updates order `id` from validated data: status and customer first,
        then, when items are given, the item set and the total. */
    method Update(id: OrderId, data: UpdateData)
      requires Valid() && id in orders
      modifies this
      ensures Valid()
      ensures State() == Updated(old(State()), id, data)
    {
      ghost var was := State();
      var current := orders[id];
      orders := orders[id := current.(status := data.status.GetOr(current.status),
                                     customer := data.customer.GetOr(current.customer))];
      assert Valid() by {
        assert orders.Keys == was.orders.Keys;
        WriteKeepsTotals(was.orders, was.items, was.items, id, orders[id]);
      }
      if data.items.Some? {
        ReplaceItems(id, data.items.value);
      }
      assert State() == Updated(was, id, data);
    }
  }

  /** Creating an order with two items, one at the catalog price and one
      with a price override, gives it both, in that order, the default
      status and the total of both lines. */
  method CreateExample(store: OrderStore, customer: CustomerId, p: Product)
    requires store.Valid()
    modifies store
  {
    ghost var before := store.State();
    var data := CreateData(customer, None, Some([ItemData(p, None, None), ItemData(p, Some(3), Some(250))]));
    var id := store.Create(data);
    ghost var rows := NewItems(id, before.nextItemId, data.items.value);
    assert ItemsOf(store.items, id) == rows
      && store.orders[id].status == Pending
      && store.orders[id].totalAmount == RequestedTotal(data.items.value) by {
      CreatedOrder(before, data);
    }
    assert rows[0].product == p.id && rows[0].quantity == 1 && rows[0].price == p.price;
    assert rows[1].quantity == 3 && rows[1].price == 250;
    assert store.orders[id].totalAmount == p.price + 750 by {
      assert RequestedTotal(data.items.value[1..]) == 750;
    }
  }

  /** Updating an order with one item replaces all its items with that one,
      at the catalog price when the override is zero, and its total with that
      line alone. */
  method ReplaceExample(store: OrderStore, id: OrderId, q: Product)
    requires store.Valid() && id in store.orders
    modifies store
  {
    ghost var before := store.State();
    var replace := UpdateData(None, Some(Paid), Some([ItemData(q, Some(2), Some(0))]));
    store.Update(id, replace);
    ghost var rows := NewItems(id, before.nextItemId, replace.items.value);
    assert ItemsOf(store.items, id) == rows
      && store.orders[id].totalAmount == RequestedTotal(replace.items.value)
      && store.orders[id].status == Paid by {
      UpdatedOrder(before, id, replace);
    }
    assert |rows| == 1 && rows[0].product == q.id && rows[0].price == q.price;
    assert store.orders[id].totalAmount == 2 * q.price by {
      assert ResolvePrice(replace.items.value[0]) == q.price;
      assert RequestedTotal(replace.items.value[1..]) == 0;
    }
  }
}
