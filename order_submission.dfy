/**
 * Saving the order form: the rules the form declares on its fields (a
 * customer, a payment method and a status are required and must be one of
 * the offered options; every line needs a product, a price and a quantity of
 * at least one) decide whether the form's state becomes a stored order. The
 * total is stored as the form holds it, since the disabled total field is
 * still sent with the form.
 */
module OrderSubmission {
  import opened Wrappers
  import opened OrderOptions
  import opened OrderTotals

  type CustomerId = nat

  /** The order-level fields of the form, as submitted: select values are option keys. */
  datatype OrderHeader = OrderHeader(customerId: Option<CustomerId>, paymentMethod: Option<string>, status: Option<string>)

  /** A stored order line: product, quantity and the unit price captured for it. */
  datatype OrderItem = OrderItem(productId: ProductId, quantity: int, price: Cents)

  /** A stored order. */
  datatype Order = Order(
    customerId: CustomerId,
    paymentMethod: PaymentMethod,
    status: Status,
    totalPrice: Cents,
    items: seq<OrderItem>)

  datatype Field = CustomerField | PaymentMethodField | StatusField

  datatype LineProblem = MissingProduct | MissingQuantity | QuantityBelowMinimum | MissingPrice

  /** Why a form cannot be saved. */
  datatype FormError =
    | Missing(field: Field)
    | NotAnOption(field: Field)
    | BadLine(index: nat, problem: LineProblem)

  /** A line that passes every rule declared on the line's fields. */
  predicate Complete(line: LineItem) {
    && line.productId.Some?
    && line.quantity.Some?
    && line.quantity.value >= MinQuantity
    && line.price.Some?
  }

  /** `item` is the stored form of `line`: same product, same price, same quantity. */
  predicate Stores(line: LineItem, item: OrderItem) {
    && line.productId == Some(item.productId)
    && line.price == Some(item.price)
    && line.quantity == Some(item.quantity)
  }

  /** A header whose three required selects hold one of their options. */
  predicate HeaderAccepted(header: OrderHeader) {
    && header.customerId.Some?
    && header.paymentMethod.Some? && header.paymentMethod.value in PaymentKeys
    && header.status.Some? && header.status.value in StatusKeys
  }

  /** Validates one line and, if it passes, gives the order item stored for it. */
  function SubmitLine(line: LineItem): (r: Result<OrderItem, LineProblem>)
    ensures r.Ok? <==> Complete(line)
    ensures r.Ok? ==> Stores(line, r.value) && r.value.quantity >= MinQuantity
    ensures r == Err(QuantityBelowMinimum) <==>
      line.productId.Some? && line.quantity.Some? && line.quantity.value < MinQuantity
  {
    match (line.productId, line.quantity, line.price)
    case (None, _, _) => Err(MissingProduct)
    case (_, None, _) => Err(MissingQuantity)
    case (Some(p), Some(q), _) =>
      if q < MinQuantity then Err(QuantityBelowMinimum)
      else if line.price.None? then Err(MissingPrice)
      else Ok(OrderItem(p, q, line.price.value))
  }

  /**
   * Validates the lines in order; `offset` is the position of `lines[0]` in
   * the form. Either every line is stored, in order, or the first line that
   * fails a rule is reported.
   */
  function SubmitLines(lines: seq<LineItem>, offset: nat): (r: Result<seq<OrderItem>, FormError>)
    ensures r.Ok? <==> forall k | 0 <= k < |lines| :: Complete(lines[k])
    ensures r.Ok? ==> |r.value| == |lines| && forall k | 0 <= k < |lines| :: Stores(lines[k], r.value[k])
    ensures r.Err? ==> && r.error.BadLine?
                       && offset <= r.error.index < offset + |lines|
                       && !Complete(lines[r.error.index - offset])
                       && forall k | 0 <= k < r.error.index - offset :: Complete(lines[k])
    decreases |lines|
  {
    if lines == [] then Ok([])
    else
      match SubmitLine(lines[0])
      case Err(p) => Err(BadLine(offset, p))
      case Ok(item) =>
        match SubmitLines(lines[1..], offset + 1)
        case Err(e) => Err(e)
        case Ok(rest) => Ok([item] + rest)
  }

  /**
   * Saves the form: the order is stored exactly when the header is accepted
   * and every line is complete, and then it carries the header's choices,
   * one stored item per line and the total the form holds.
   */
  function Submit(header: OrderHeader, lines: seq<LineItem>, totalPrice: Cents): (r: Result<Order, FormError>)
    ensures r.Ok? <==> HeaderAccepted(header) && forall k | 0 <= k < |lines| :: Complete(lines[k])
    ensures r.Ok? ==>
      && header.customerId == Some(r.value.customerId)
      && header.paymentMethod == Some(PaymentKey(r.value.paymentMethod))
      && header.status == Some(StatusKey(r.value.status))
      && r.value.totalPrice == totalPrice
      && |r.value.items| == |lines|
      && forall k | 0 <= k < |lines| :: Stores(lines[k], r.value.items[k])
    ensures r.Ok? ==> forall k | 0 <= k < |r.value.items| :: r.value.items[k].quantity >= MinQuantity
  {
    if header.customerId.None? then Err(Missing(CustomerField))
    else if header.paymentMethod.None? then Err(Missing(PaymentMethodField))
    else if ParsePaymentMethod(header.paymentMethod.value).None? then Err(NotAnOption(PaymentMethodField))
    else if header.status.None? then Err(Missing(StatusField))
    else if ParseStatus(header.status.value).None? then Err(NotAnOption(StatusField))
    else
      match SubmitLines(lines, 0)
      case Err(e) => Err(e)
      case Ok(items) =>
        Ok(Order(
          header.customerId.value,
          ParsePaymentMethod(header.paymentMethod.value).value,
          ParseStatus(header.status.value).value,
          totalPrice,
          items))
  }

  /** The sum of price times quantity over stored order items. */
  function ItemsTotal(items: seq<OrderItem>): Cents {
    if items == [] then 0 else items[0].price * items[0].quantity + ItemsTotal(items[1..])
  }

  /** Lines and the items stored for them, position by position, have the same total. */
  lemma {:induction false} StoredItemsKeepTotal(lines: seq<LineItem>, items: seq<OrderItem>)
    requires |items| == |lines|
    requires forall k | 0 <= k < |lines| :: Stores(lines[k], items[k])
    ensures Total(lines) == ItemsTotal(items)
    decreases |lines|
  {
    if lines != [] {
      StoredItemsKeepTotal(lines[1..], items[1..]);
    }
  }

  /**
   * A form saved with the total its lines give stores an order whose total
   * is the sum of price times quantity over its own items.
   */
  lemma SavedTotalIsItemSum(header: OrderHeader, lines: seq<LineItem>)
    requires Submit(header, lines, Total(lines)).Ok?
    ensures Submit(header, lines, Total(lines)).value.totalPrice == ItemsTotal(Submit(header, lines, Total(lines)).value.items)
  {
    var order := Submit(header, lines, Total(lines)).value;
    StoredItemsKeepTotal(lines, order.items);
  }
}
