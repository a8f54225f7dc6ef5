/** The order schema: the status choices, field defaults, the product price the
    orders read, and the line total of one item.

    Money is a count of cents: the schema stores amounts as exact decimals with
    two decimal places, so an integer number of hundredths represents every
    such amount exactly and multiplication by a quantity stays exact. */
module OrderModels {

  datatype Option<T> = None | Some(value: T) {
    /** The value when present, `default` otherwise (Python's `dict.get(key, default)`). */
    function GetOr(default: T): T {
      match this
      case Some(v) => v
      case None => default
    }
  }

  type CustomerId = nat
  type ProductId = nat
  type OrderId = nat
  type ItemId = nat

  /** A decimal amount with at most 10 digits, 2 of them after the point, is at
      most 99999999.99 in magnitude, that is fewer than 10^10 cents. */
  const AmountDigits: nat := 10
  const AmountBound: int := 10_000_000_000

  predicate FitsAmount(cents: int) {
    -AmountBound < cents < AmountBound
  }

  /** The four status choices of an order. */
  datatype Status = Pending | Paid | Shipped | Cancelled {
    /** The value stored in the status column. */
    function Value(): string {
      match this
      case Pending => "pending"
      case Paid => "paid"
      case Shipped => "shipped"
      case Cancelled => "cancelled"
    }
  }

  /** Reads a stored status value back; anything but the four choices is rejected. */
  function StatusFromValue(s: string): (r: Option<Status>)
    ensures forall st: Status :: r == Some(st) <==> st.Value() == s
    ensures r.None? <==> s !in {"pending", "paid", "shipped", "cancelled"}
  {
    if s == "pending" then Some(Pending)
    else if s == "paid" then Some(Paid)
    else if s == "shipped" then Some(Shipped)
    else if s == "cancelled" then Some(Cancelled)
    else None
  }

  /** The choices list of the status column, in declaration order. */
  function Choices(): (r: seq<Status>)
    ensures |r| == 4
    ensures forall i, j :: 0 <= i < j < |r| ==> r[i].Value() != r[j].Value()
    ensures r[0] == DefaultStatus
  {
    [Pending, Paid, Shipped, Cancelled]
  }

  /** Every status is one of the choices: the status column holds nothing else. */
  lemma ChoicesComplete(st: Status)
    ensures st in Choices()
  {
    match st
    case Pending => assert Choices()[0] == st;
    case Paid => assert Choices()[1] == st;
    case Shipped => assert Choices()[2] == st;
    case Cancelled => assert Choices()[3] == st;
  }

  const DefaultStatus: Status := Pending
  const DefaultTotal: int := 0
  const DefaultQuantity: nat := 1

  /** The one product attribute the order logic reads: its catalog price. */
  datatype Product = Product(id: ProductId, price: int)

  /** One row of the order table (timestamps are not modelled). */
  datatype Order = Order(customer: CustomerId, status: Status, totalAmount: int)

  /** A freshly created order row: the status is the given one or the column
      default, and the total is the column default. */
  function NewOrder(customer: CustomerId, status: Option<Status>): (o: Order)
    ensures o.customer == customer
    ensures status.Some? ==> o.status == status.value
    ensures status.None? ==> o.status == Pending
    ensures o.totalAmount == 0
  {
    Order(customer, status.GetOr(DefaultStatus), DefaultTotal)
  }

  /** One row of the order item table. The price is stored on the item, so a
      later change of the product's price does not touch it. */
  datatype OrderItem = OrderItem(id: ItemId, order: OrderId, product: ProductId, quantity: nat, price: int) {
    /** Quantity times unit price. */
    function LineTotal(): int {
      quantity * price
    }
  }

  /** A line of one unit costs its price; a line is free exactly when its
      quantity or its price is zero; a line never has the opposite sign of
      its price, and grows with the quantity. */
  lemma LineTotalProperties(item: OrderItem, more: OrderItem)
    requires more == item.(quantity := more.quantity) && item.quantity <= more.quantity
    ensures item.quantity == 1 ==> item.LineTotal() == item.price
    ensures item.LineTotal() == 0 <==> item.quantity == 0 || item.price == 0
    ensures item.price >= 0 ==> 0 <= item.LineTotal() <= more.LineTotal()
    ensures item.price <= 0 ==> more.LineTotal() <= item.LineTotal() <= 0
  {
    assert more.LineTotal() == item.LineTotal() + (more.quantity - item.quantity) * item.price;
  }
}
