/** The order item table as a sequence of rows in insertion order, and the two
    queries the order logic runs on it: the items of one order (the `items`
    relation of an order) and deleting them. */
module ItemTable {
  import opened OrderModels

  /** The rows that belong to order `o`, in table order. */
  function ItemsOf(rows: seq<OrderItem>, o: OrderId): seq<OrderItem>
    decreases |rows|
  {
    if rows == [] then []
    else
      var init, last := rows[..|rows| - 1], rows[|rows| - 1];
      assert rows == init + [last];
      if last.order == o then ItemsOf(init, o) + [last] else ItemsOf(init, o)
  }

  /** The table after deleting every row of order `o`. */
  function WithoutOrder(rows: seq<OrderItem>, o: OrderId): seq<OrderItem>
    decreases |rows|
  {
    if rows == [] then []
    else
      var init, last := rows[..|rows| - 1], rows[|rows| - 1];
      assert rows == init + [last];
      if last.order != o then WithoutOrder(init, o) + [last] else WithoutOrder(init, o)
  }

  /** The items of `o` are exactly the rows of the table that belong to `o`. */
  lemma {:induction false} ItemsOfMembers(rows: seq<OrderItem>, o: OrderId)
    ensures forall x :: x in ItemsOf(rows, o) <==> x in rows && x.order == o
    decreases |rows|
  {
    if rows != [] {
      var init, last := rows[..|rows| - 1], rows[|rows| - 1];
      assert rows == init + [last];
      ItemsOfMembers(init, o);
    }
  }

  /** After deleting `o`'s rows, the table holds exactly the rows of other orders. */
  lemma {:induction false} WithoutOrderMembers(rows: seq<OrderItem>, o: OrderId)
    ensures forall x :: x in WithoutOrder(rows, o) <==> x in rows && x.order != o
    decreases |rows|
  {
    if rows != [] {
      var init, last := rows[..|rows| - 1], rows[|rows| - 1];
      assert rows == init + [last];
      WithoutOrderMembers(init, o);
    }
  }

  /** Row identifiers grow along the table (they are handed out in increasing order). */
  predicate IdsAscending(rows: seq<OrderItem>) {
    forall i, j :: 0 <= i < j < |rows| ==> rows[i].id < rows[j].id
  }

  /** The shape of the table, row by row from the back: every row belongs to
      an order in `keys`, and its identifier is below that of the row after
      it, the last one below `bound`, the next identifier to hand out. */
  predicate Chained(keys: set<OrderId>, rows: seq<OrderItem>, bound: ItemId)
    decreases |rows|
  {
    rows == [] ||
    var last := rows[|rows| - 1];
    && last.order in keys
    && last.id < bound
    && Chained(keys, rows[..|rows| - 1], last.id)
  }

  /** What a chained table means: all rows belong to known orders, all
      identifiers are below the bound, and they ascend. */
  lemma {:induction false} ChainedShape(keys: set<OrderId>, rows: seq<OrderItem>, bound: ItemId)
    requires Chained(keys, rows, bound)
    ensures forall i :: 0 <= i < |rows| ==> rows[i].order in keys && rows[i].id < bound
    ensures IdsAscending(rows)
    decreases |rows|
  {
    if rows != [] {
      var init, last := rows[..|rows| - 1], rows[|rows| - 1];
      ChainedShape(keys, init, last.id);
      assert forall i :: 0 <= i < |init| ==> rows[i] == init[i];
    }
  }

  /** An order that is not among the table's orders has no rows. */
  lemma {:induction false} ChainedUnknownOrder(keys: set<OrderId>, rows: seq<OrderItem>, bound: ItemId, o: OrderId)
    requires Chained(keys, rows, bound) && o !in keys
    ensures ItemsOf(rows, o) == []
    decreases |rows|
  {
    if rows != [] {
      ChainedUnknownOrder(keys, rows[..|rows| - 1], rows[|rows| - 1].id, o);
    }
  }

  lemma {:induction false} ChainedWeaken(keys: set<OrderId>, keys': set<OrderId>, rows: seq<OrderItem>, bound: ItemId, bound': ItemId)
    requires Chained(keys, rows, bound) && keys <= keys' && bound <= bound'
    ensures Chained(keys', rows, bound')
    decreases |rows|
  {
    if rows != [] {
      var last := rows[|rows| - 1];
      ChainedWeaken(keys, keys', rows[..|rows| - 1], last.id, last.id);
    }
  }

  /** Appending a row for a known order with an identifier at or above the
      bound keeps the table chained. */
  lemma ChainedSnoc(keys: set<OrderId>, rows: seq<OrderItem>, bound: ItemId, item: OrderItem)
    requires Chained(keys, rows, bound) && item.order in keys && bound <= item.id
    ensures Chained(keys, rows + [item], item.id + 1)
  {
    assert (rows + [item])[..|rows|] == rows;
    ChainedWeaken(keys, keys, rows, bound, item.id);
  }

  /** Deleting the rows of an order keeps the table chained. */
  lemma {:induction false} WithoutOrderChained(keys: set<OrderId>, rows: seq<OrderItem>, bound: ItemId, o: OrderId)
    requires Chained(keys, rows, bound)
    ensures Chained(keys, WithoutOrder(rows, o), bound)
    decreases |rows|
  {
    if rows != [] {
      var init, last := rows[..|rows| - 1], rows[|rows| - 1];
      WithoutOrderChained(keys, init, last.id, o);
      if last.order != o {
        ChainedSnoc(keys, WithoutOrder(init, o), last.id, last);
        ChainedWeaken(keys, keys, WithoutOrder(rows, o), last.id + 1, bound);
      } else {
        ChainedWeaken(keys, keys, WithoutOrder(init, o), last.id, bound);
      }
    }
  }

  lemma {:induction false} ItemsOfAppend(a: seq<OrderItem>, b: seq<OrderItem>, o: OrderId)
    ensures ItemsOf(a + b, o) == ItemsOf(a, o) + ItemsOf(b, o)
    decreases |b|
  {
    if b == [] {
      assert a + b == a;
    } else {
      var init := b[..|b| - 1];
      assert (a + b)[..|a + b| - 1] == a + init;
      ItemsOfAppend(a, init, o);
    }
  }

  /** Rows that all belong to `o` are all of `o`'s rows. */
  lemma {:induction false} ItemsOfOwn(rows: seq<OrderItem>, o: OrderId)
    requires forall i :: 0 <= i < |rows| ==> rows[i].order == o
    ensures ItemsOf(rows, o) == rows
    decreases |rows|
  {
    if rows != [] {
      var init := rows[..|rows| - 1];
      ItemsOfOwn(init, o);
      assert rows == init + [rows[|rows| - 1]];
    }
  }

  /** Rows none of which belongs to `o` contribute nothing to `o`'s items. */
  lemma {:induction false} ItemsOfForeign(rows: seq<OrderItem>, o: OrderId)
    requires forall i :: 0 <= i < |rows| ==> rows[i].order != o
    ensures ItemsOf(rows, o) == []
    decreases |rows|
  {
    if rows != [] {
      ItemsOfForeign(rows[..|rows| - 1], o);
    }
  }

  /** Deleting `o`'s rows removes all of them and keeps every other order's
      rows exactly, in order. */
  lemma {:induction false} WithoutOrderItemsOf(rows: seq<OrderItem>, o: OrderId, p: OrderId)
    ensures ItemsOf(WithoutOrder(rows, o), p) == if p == o then [] else ItemsOf(rows, p)
    decreases |rows|
  {
    if rows != [] {
      var init, last := rows[..|rows| - 1], rows[|rows| - 1];
      WithoutOrderItemsOf(init, o, p);
      if last.order != o {
        ItemsOfAppend(WithoutOrder(init, o), [last], p);
      }
    }
  }

  /** Appending the rows of an order that had none: that order's items are
      the appended rows, every other order's items are as before. */
  lemma AppendNewOrderRows(rows: seq<OrderItem>, created: seq<OrderItem>, id: OrderId)
    requires ItemsOf(rows, id) == []
    requires forall k :: 0 <= k < |created| ==> created[k].order == id
    ensures ItemsOf(rows + created, id) == created
    ensures forall o :: o != id ==> ItemsOf(rows + created, o) == ItemsOf(rows, o)
  {
    ItemsOfAppend(rows, created, id);
    ItemsOfOwn(created, id);
    forall o | o != id
      ensures ItemsOf(rows + created, o) == ItemsOf(rows, o)
    {
      ItemsOfAppend(rows, created, o);
      ItemsOfForeign(created, o);
    }
  }

  /** Deleting an order's rows and appending new ones for it: that order's
      items are the new rows alone, every other order's items are as before. */
  lemma ReplaceOrderRows(rows: seq<OrderItem>, created: seq<OrderItem>, id: OrderId)
    requires forall k :: 0 <= k < |created| ==> created[k].order == id
    ensures ItemsOf(WithoutOrder(rows, id) + created, id) == created
    ensures forall o :: o != id ==> ItemsOf(WithoutOrder(rows, id) + created, o) == ItemsOf(rows, o)
  {
    var kept := WithoutOrder(rows, id);
    WithoutOrderItemsOf(rows, id, id);
    ItemsOfAppend(kept, created, id);
    ItemsOfOwn(created, id);
    forall o | o != id
      ensures ItemsOf(kept + created, o) == ItemsOf(rows, o)
    {
      WithoutOrderItemsOf(rows, id, o);
      ItemsOfAppend(kept, created, o);
      ItemsOfForeign(created, o);
    }
  }
}
