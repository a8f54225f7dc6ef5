# Order aggregator of django-crud-api, modelled in Dafny

This project models the order aggregator of a small Django REST back end. It consists of `OrderSerializer.create` and `OrderSerializer.update`, which turn a validated request into one order row plus its item rows. The model covers:

- resolving each requested line item: the quantity defaults to 1, and the price is the override when it is truthy, otherwise the product's catalog price;
- accumulating the order's total in a loop;
- on update, replacing the order's whole item set.

It also models the order schema these operations write: the four status choices, the field defaults, the item fields and the line total.

The files:

- `orders_models.dfy` (module `OrderModels`, pure). Holds the `Status` choices, the defaults, the `Order`, `OrderItem` and `Product` rows, and the line total. Money is an integer number of cents, because the schema stores exact two-decimal amounts.
- `orders_serializers.dfy` (module `OrderSerializers`, pure). Holds the per-item rules: `ResolveQuantity`, `ResolvePrice`, the rows `NewItems` made for a request, the sum of line totals, and `RequestedTotal`, which is the total computed straight from the request and serves as the reference definition.
- `item_table.dfy` (module `ItemTable`). The item table is a sequence of rows in insertion order. It provides the items of one order (`ItemsOf`), the deletion of one order's items (`WithoutOrder`), and `Chained`, the shape of the table: every row belongs to an existing order and row identifiers ascend.
- `order_tables.dfy` (module `OrderTables`, imperative). It has three layers:
  - The tables as a value, `Tables`, and their invariant `Consistent`. The invariant says that identifiers are fresh, the table is chained, and every order's total equals the sum of its items' line totals.
  - The functions `Created`, `Replaced` and `Updated`, which say what each operation leaves in the tables, with lemmas about them.
  - The class `OrderStore`, whose methods perform create and update step by step, in the source's order. `Create`, `ReplaceItems` and `Update` each prove that the new state is the corresponding function of the old state, and that `Valid()` is kept. `CreateItems` holds the source's loop: it appends one row per request and keeps a running total, with loop invariants. It is a step inside create and the replacement, and it keeps no invariant of its own: it appends rows for whatever order it is given, but the order's total is written only afterwards.

The database is the `OrderStore` object. The order table is a map from order identifier to row. The item table is a sequence. Auto-increment keys are two counters.

Three behaviours of the code that are easy to get wrong:

- **Quantity 0.** `quantity` is a `PositiveIntegerField`, which admits 0, and the serializer does not reject it. The model accepts quantity 0.
- **Atomicity.** `create` and `update` are not wrapped in a transaction. The model's methods are plain sequences of writes and claim no all-or-nothing behaviour.
- **Negative prices.** Item prices are not constrained to be non-negative. A negative override is truthy, so it is used as given. The sign lemmas (`OrderModels.LineTotalProperties`, `OrderSerializers.SumLineTotalsNonNegative`) therefore carry the sign as a hypothesis.

## Model

| member | source | states |
|---|---|---|
| OrderModels.StatusFromValue | backend/orders/models.py:10-14 | A stored status value reads back as status `st` exactly when it is `st`'s value; anything other than the four values is rejected. |
| OrderModels.Choices | backend/orders/models.py:10-14 | There are four choices with pairwise distinct stored values; the first is the default, pending. |
| OrderModels.ChoicesComplete | backend/orders/models.py:10-14 | Every status is one of the four choices. |
| OrderModels.NewOrder | backend/orders/models.py:16-18 | A new order row keeps the customer, has the given status or pending when none is given, and total 0. |
| OrderModels.OrderItem.LineTotal | backend/orders/models.py:42-43 | Computes quantity times unit price. Its properties are stated by `LineTotalProperties`. |
| OrderModels.LineTotalProperties | backend/orders/models.py:42-43 | The line total of one unit is the price. A line is free exactly when its quantity or its price is zero. The line total never has the opposite sign of the price, and moves monotonically with the quantity. |
| OrderSerializers.ResolveQuantity | backend/orders/serializers.py:52 | An absent quantity becomes 1; a given one, even 0, is kept. |
| OrderSerializers.ResolvePrice | backend/orders/serializers.py:55 | A truthy override is used; an absent or zero override gives the catalog price, so a zero override is silently replaced. The result differs from a given override only when that override is zero. Amounts that fit the decimal column give a price that fits it. |
| OrderSerializers.RequestedItems | backend/orders/serializers.py:46 | Absent items mean no items. |
| OrderSerializers.MakeItem | backend/orders/serializers.py:51-60 | Computes the item row created for one request: the order, the product, and the resolved quantity and price. |
| OrderSerializers.NewItems | backend/orders/serializers.py:50-60 | Computes the rows the loop creates for the requests, with consecutive identifiers. Its shape is stated by `NewItemsAt`. |
| OrderSerializers.SumLineTotals | backend/orders/serializers.py:56 | Computes the sum of the line totals of some rows. It is the total an order must carry. |
| OrderSerializers.RequestedTotal | backend/orders/serializers.py:48-56 | Computes the total straight from the requests, as resolved quantity times resolved price summed over them. `NewItemsTotal` ties it to `SumLineTotals`. |
| OrderSerializers.NewItemsAt | backend/orders/serializers.py:50-60 | One row per request, in request order, owned by the order, with consecutive identifiers, the requested product, and the resolved quantity and price. |
| OrderSerializers.NewItemsTotal | backend/orders/serializers.py:48-56 | The sum of the line totals of the created rows equals the total computed from the requests. |
| OrderSerializers.SumLineTotalsAppend | backend/orders/serializers.py:56 | The total of two groups of rows is the sum of their totals. |
| OrderSerializers.SumLineTotalsNonNegative | backend/orders/models.py:42-43 | With no negative prices, a sum of line totals is never negative. |
| OrderSerializers.TotalCanExceedPrecision | backend/orders/serializers.py:56-62 | A price that fits the ten-digit column, times quantity 2, gives a total that does not fit it: the total is never checked against the column. |
| ItemTable.ItemsOf | backend/orders/models.py:34 | Computes the `items` relation of an order: the rows that belong to it, in table order. Its meaning is stated by `ItemsOfMembers`. |
| ItemTable.WithoutOrder | backend/orders/serializers.py:74 | Computes the item table after `instance.items.all().delete()`. Its meaning is stated by `WithoutOrderMembers` and `WithoutOrderItemsOf`. |
| ItemTable.ItemsOfMembers | backend/orders/models.py:34 | An order's items are exactly the table rows that belong to it. |
| ItemTable.WithoutOrderMembers | backend/orders/serializers.py:74 | After the delete, the table holds exactly the rows of other orders. |
| ItemTable.WithoutOrderItemsOf | backend/orders/serializers.py:74 | After the delete, the order has no items, and every other order keeps exactly its items, in order. |
| ItemTable.ChainedShape | backend/orders/models.py:34 | In a chained table, every row belongs to an existing order, identifiers are below the next one, and they ascend. |
| ItemTable.ChainedUnknownOrder | backend/orders/models.py:34 | An order that does not exist has no items. |
| ItemTable.WithoutOrderChained | backend/orders/serializers.py:74 | Deleting an order's items keeps the table chained. |
| ItemTable.AppendNewOrderRows | backend/orders/serializers.py:58-60 | Appending rows for an order that had none makes them its items and changes no other order's items. |
| ItemTable.ReplaceOrderRows | backend/orders/serializers.py:74-86 | Deleting an order's rows and appending new ones makes the new rows its only items and changes no other order's items. |
| OrderTables.Created | backend/orders/serializers.py:44-64 | Computes the tables after create: a new order row, the rows made from the requests appended, and the order's total set to the sum of their line totals. Its properties are stated by `CreatedOrder`, `CreatedEmpty` and `CreatedConsistent`. |
| OrderTables.Replaced | backend/orders/serializers.py:73-88 | Computes the tables after the item replacement: the order's rows deleted, the new rows appended, and its total set to theirs. Its properties are stated by `ReplacedOrder` and `ReplacedConsistent`. |
| OrderTables.Updated | backend/orders/serializers.py:66-90 | Computes the tables after update: status and customer with their fallbacks, then the replacement only when items are given. Its properties are stated by `UpdatedOrder` and `UpdatedConsistent`. |
| OrderTables.WriteKeepsTotals | backend/orders/serializers.py:62-63 | Setting one order's total to the sum over its new items, while no other order's items change, keeps every total matching its items. |
| OrderTables.NewItemsChained | backend/orders/serializers.py:58-60 | Appending the created rows for an existing order keeps the table chained. |
| OrderTables.CreatedConsistent | backend/orders/serializers.py:44-64 | Create keeps the tables consistent; in particular the new order's total equals the sum of its items' line totals. |
| OrderTables.CreatedOrder | backend/orders/serializers.py:44-64 | For tables whose identifiers and foreign keys are well formed, even when some total is stale: after create, the new order did not exist before. Its items are exactly the rows made from the requests, in order. Its total is the requested total. Its status is the given one or pending. No other order, and no other order's items, change. |
| OrderTables.CreatedEmpty | backend/orders/serializers.py:46-48 | Create with items absent or empty gives an order with no items and total 0. |
| OrderTables.ReplacedOrder | backend/orders/serializers.py:73-88 | Replacing the items makes the new rows the order's only items, with a total computed from them alone. No other order, and no other order's items, change. |
| OrderTables.ReplacedConsistent | backend/orders/serializers.py:73-88 | Replacing the items keeps the tables consistent. |
| OrderTables.UpdatedOrder | backend/orders/serializers.py:66-90 | Update keeps the current status and customer when they are absent. With items absent, the item table and the total are unchanged. With items present, even empty, the order holds exactly the new rows and their total alone. No other order, and no other order's items, change. |
| OrderTables.UpdatedConsistent | backend/orders/serializers.py:66-90 | Update keeps the tables consistent. |
| OrderTables.OrderStore.constructor | backend/orders/models.py:7-43 | The store starts with empty tables, which are consistent. |
| OrderTables.OrderStore.CreateItems | backend/orders/serializers.py:48-61 | The loop appends exactly the rows made from the requests, advances the item counter by their number, and returns the sum of their line totals, which equals the requested total. |
| OrderTables.OrderStore.Create | backend/orders/serializers.py:44-64 | Writes the order row, then its items, then its total. The new state is `Created` of the old one, the returned identifier is the new order's, and consistency is kept. |
| OrderTables.OrderStore.ReplaceItems | backend/orders/serializers.py:73-88 | Deletes the order's items, creates the new ones and sets the total. The new state is `Replaced` of the old one, and consistency is kept. |
| OrderTables.OrderStore.Update | backend/orders/serializers.py:66-90 | Saves status and customer with fallbacks, then replaces the items only when they are given. The new state is `Updated` of the old one, and consistency is kept. |

## Left out

- HTTP handling, routing, permissions and the view sets live in `backend/orders/views.py` and the other views. They are framework code. `OrderItemViewSet` can write item rows directly, bypassing the total invariant, and that path is not part of this model.
- Request validation by the framework is not modelled: customer and product lookups by primary key, decimal field formats, and the 0 to 2147483647 bounds of the quantity field. The operations take already validated data, in which a line item carries the product row itself and optional `quantity` and `price` values.
- Transactions and concurrency are not modelled, because the code issues plain writes with no `transaction.atomic`. A failure part-way through is not modelled either.
- Database behaviour is not modelled: cascade and protect delete rules, and what the database does with a total that exceeds the ten-digit column. `OrderSerializers.TotalCanExceedPrecision` only shows that such a total can arise.
- Timestamps (`created_at`, `updated_at`) and the ordering meta are not modelled, because no clock is part of this model.
- Status labels and their translation, and the `__str__` methods, are not modelled; they are display text.
- Product, customer and account models, and the demo seeding command, are not part of this model. The seeding command is random and repeats the serializer's arithmetic. The only product attribute used is the price, which is passed in with each line item.
- Auto-increment primary keys are modelled as two counters, one per table.
- The serializer's output fields (`customer_name`, `product_name`, `get_line_total` in the response) are not modelled.
