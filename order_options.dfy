/**
 * The closed option sets of the order form: the payment method and the order
 * status selects, the keys under which each choice is stored, and the badge
 * colour the orders table gives a stored payment method.
 */
module OrderOptions {
  import opened Wrappers

  /** The choices of the `payment_method` select. */
  datatype PaymentMethod = Cash | Card | Online

  /** The choices of the `status` select. No transition between them is enforced. */
  datatype Status = New | Processing | Shipped | Cancelled

  /** The keys the payment method select offers, and the only ones it accepts. */
  const PaymentKeys: set<string> := {"cash", "card", "online"}

  /** The keys the status select offers, and the only ones it accepts. */
  const StatusKeys: set<string> := {"new", "processing", "shipped", "cancelled"}

  /** The key under which a payment method is stored. */
  function PaymentKey(m: PaymentMethod): (k: string)
    ensures k in PaymentKeys
  {
    match m
    case Cash => "cash"
    case Card => "card"
    case Online => "online"
  }

  /** The payment method a submitted key selects, if it is one of the options. */
  function ParsePaymentMethod(key: string): (r: Option<PaymentMethod>)
    ensures r.Some? <==> key in PaymentKeys
    ensures r.Some? ==> PaymentKey(r.value) == key
  {
    if key == "cash" then Some(Cash)
    else if key == "card" then Some(Card)
    else if key == "online" then Some(Online)
    else None
  }

  /** The key under which a status is stored. */
  function StatusKey(s: Status): (k: string)
    ensures k in StatusKeys
  {
    match s
    case New => "new"
    case Processing => "processing"
    case Shipped => "shipped"
    case Cancelled => "cancelled"
  }

  /** The status a submitted key selects, if it is one of the options. */
  function ParseStatus(key: string): (r: Option<Status>)
    ensures r.Some? <==> key in StatusKeys
    ensures r.Some? ==> StatusKey(r.value) == key
  {
    if key == "new" then Some(New)
    else if key == "processing" then Some(Processing)
    else if key == "shipped" then Some(Shipped)
    else if key == "cancelled" then Some(Cancelled)
    else None
  }

  /** Storing a payment method and reading its key back gives the same method. */
  lemma PaymentKeyRoundTrip(m: PaymentMethod)
    ensures ParsePaymentMethod(PaymentKey(m)) == Some(m)
  {
  }

  /** Storing a status and reading its key back gives the same status. */
  lemma StatusKeyRoundTrip(s: Status)
    ensures ParseStatus(StatusKey(s)) == Some(s)
  {
  }

  /**
   * The badge colour of the payment column: one colour per option key, and
   * the fallback colour exactly for a stored value that is not an option.
   */
  function PaymentBadgeColor(key: string): (c: string)
    ensures c == "secondary" <==> ParsePaymentMethod(key).None?
    ensures ParsePaymentMethod(key) == Some(Cash) ==> c == "success"
    ensures ParsePaymentMethod(key) == Some(Card) ==> c == "info"
    ensures ParsePaymentMethod(key) == Some(Online) ==> c == "primary"
  {
    match key
    case "cash" => "success"
    case "card" => "info"
    case "online" => "primary"
    case _ => "secondary"
  }
}
