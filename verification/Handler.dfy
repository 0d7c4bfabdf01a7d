/**
  The handlers in front of the services: what a request must satisfy before a call starts, and what of its body and
  headers arrives in the rows.
*/
module Handler {
  import opened Base
  import opened Text
  import opened Routing
  import opened Money
  import opened Domain
  import opened Protocol
  import opened Runs
  import opened Requests

  datatype PaymentBody = PaymentBody(orderId: string, customerId: string, amount: Decimal, currency: string,
                                     gateway: string, key: string)

  datatype RefundBody = RefundBody(amount: Decimal, reason: string)

  datatype ApiError = OrderIdRequired | CustomerIdRequired | AmountInvalid | AmountScaleInvalid | CurrencyInvalid

  /** decimalCmpPositive */
  predicate IsPositive(d: Decimal) {
    Cmp(d, ZERO) > 0
  }

  function ValidatePayment(b: PaymentBody): Option<ApiError> {
    if Trim(b.orderId) == "" then Some(OrderIdRequired)
    else if Trim(b.customerId) == "" then Some(CustomerIdRequired)
    else if !IsPositive(b.amount) then Some(AmountInvalid)
    else if b.amount.exp < -4 then Some(AmountScaleInvalid)
    else if ByteLength(Trim(b.currency)) != 3 then Some(CurrencyInvalid)
    else None
  }

  function ValidateRefund(b: RefundBody): Option<ApiError> {
    if !IsPositive(b.amount) then Some(AmountInvalid)
    else if b.amount.exp < -4 then Some(AmountScaleInvalid)
    else None
  }

  /** The key comes from the first of two headers, or the body, that is not blank. */
  function ChooseKey(header: string, fallback: string, body: string): string {
    if Trim(header) != "" then header else if Trim(fallback) != "" then fallback else body
  }

  function PaymentArgs(b: PaymentBody, correlationId: string, header: string, fallback: string): PayArgs
    requires Scaled(b.amount)
  {
    PayArgs(b.orderId, b.customerId, Units(b.amount), b.currency, b.gateway, correlationId,
            ChooseKey(header, fallback, b.key))
  }

  function RefundArgsOf(paymentId: Id, b: RefundBody, userId: string, correlationId: string): RefundArgs
    requires Scaled(b.amount)
  {
    RefundArgs(paymentId, Units(b.amount), b.reason, userId, correlationId)
  }

  lemma PositiveIffCoefficient(d: Decimal)
    ensures IsPositive(d) <==> d.coef > 0
  {
    if d.exp >= 0 {
      MulMonotone(0, d.coef, Pow10(d.exp));
    }
  }

  /** Accepted amounts are exactly the positive ones that are whole numbers of 10^-4 units. */
  lemma AcceptedAmount(d: Decimal)
    requires Scaled(d)
    ensures IsPositive(d) <==> 0 < Units(d)
  {
    PositiveIffCoefficient(d);
    MulMonotone(0, d.coef, Pow10(d.exp + 4));
  }

  /**
    A payment request passes validation exactly when order and customer are not blank, the amount is positive with at
    most four places, and the trimmed currency is three bytes long; then it can start a call.
  */
  lemma AcceptedPayment(b: PaymentBody, correlationId: string, header: string, fallback: string)
    ensures ValidatePayment(b) == None <==>
              && !Blank(b.orderId) && !Blank(b.customerId) && Scaled(b.amount) && 0 < Units(b.amount)
              && ByteLength(Trim(b.currency)) == 3
    ensures ValidatePayment(b) == None ==> Admissible(PayReq(PaymentArgs(b, correlationId, header, fallback)))
  {
    var i, j := StoredOrNull(b.orderId);
    var k, l := StoredOrNull(b.customerId);
    PositiveIffCoefficient(b.amount);
    if Scaled(b.amount) {
      AcceptedAmount(b.amount);
    }
  }

  /**
    A refund request passes validation exactly when its amount is positive with at most four places; then it can start a
    call.
  */
  lemma AcceptedRefund(paymentId: Id, b: RefundBody, userId: string, correlationId: string)
    ensures ValidateRefund(b) == None <==> Scaled(b.amount) && 0 < Units(b.amount)
    ensures ValidateRefund(b) == None ==> Admissible(RefundReq(RefundArgsOf(paymentId, b, userId, correlationId)))
  {
    PositiveIffCoefficient(b.amount);
    if Scaled(b.amount) {
      AcceptedAmount(b.amount);
    }
  }

  // ---------- Refusals ----------

  /** What each error says of a payment request. */
  predicate PaymentFails(b: PaymentBody, e: ApiError) {
    match e
    case OrderIdRequired => Blank(b.orderId)
    case CustomerIdRequired => Blank(b.customerId)
    case AmountInvalid => b.amount.coef <= 0
    case AmountScaleInvalid => b.amount.exp < -4
    case CurrencyInvalid => ByteLength(Trim(b.currency)) != 3
  }

  /** The order in which they are looked for. */
  function Rank(e: ApiError): nat {
    match e
    case OrderIdRequired => 0
    case CustomerIdRequired => 1
    case AmountInvalid => 2
    case AmountScaleInvalid => 3
    case CurrencyInvalid => 4
  }

  /** A refused payment request is told the first thing wrong with it. */
  lemma PaymentToldFirst(b: PaymentBody, e: ApiError)
    ensures ValidatePayment(b) == Some(e) <==>
              PaymentFails(b, e) && forall f :: Rank(f) < Rank(e) ==> !PaymentFails(b, f)
  {
    BlankIffTrimmedAway(b.orderId);
    BlankIffTrimmedAway(b.customerId);
    PositiveIffCoefficient(b.amount);
    if PaymentFails(b, e) && ValidatePayment(b) != Some(e) {
      var first := ValidatePayment(b).value;
      assert PaymentFails(b, first) && Rank(first) < Rank(e);
    }
  }

  /** So is a refused refund request; only its amount can be wrong. */
  lemma RefundToldFirst(b: RefundBody, e: ApiError)
    ensures ValidateRefund(b) == Some(e) <==>
              || (e == AmountInvalid && b.amount.coef <= 0)
              || (e == AmountScaleInvalid && b.amount.coef > 0 && b.amount.exp < -4)
  {
    PositiveIffCoefficient(b.amount);
  }

  // ---------- From the body to the rows ----------

  lemma KeyChosen(header: string, fallback: string, body: string)
    ensures !Blank(header) ==> ChooseKey(header, fallback, body) == header
    ensures Blank(header) && !Blank(fallback) ==> ChooseKey(header, fallback, body) == fallback
    ensures Blank(header) && Blank(fallback) ==> ChooseKey(header, fallback, body) == body
  {
    BlankIffTrimmedAway(header);
    BlankIffTrimmedAway(fallback);
  }

  /** What a nullable column holds of a text. */
  function Stored(s: string): Option<string> {
    if Blank(s) then None else Some(Trim(s))
  }

  lemma StoresText(s: string)
    ensures NullString(s) == Stored(s)
  {
    BlankIffTrimmedAway(s);
  }

  /**
    A payment request that passes validation and whose call commits is stored as its body and headers say: the key is
    the first of the two headers and the body that is not blank, and the gateway is the one named, or the default.
  */
  lemma PaymentBodyStored(cfg: Config, ls: seq<Label>, s: State, i: nat, b: PaymentBody, correlationId: string,
                          header: string, fallback: string)
    returns (g: Gateway)
    requires Reaches(cfg, ls, s) && i < |s.sh.log| && s.sh.log[i].op.ChargeOp?
    requires ValidatePayment(b) == None && s.sh.log[i].cid in s.calls
    requires s.calls[s.sh.log[i].cid].req == PayReq(PaymentArgs(b, correlationId, header, fallback))
    ensures Leads(cfg.router, AskedKey(cfg.router.defaultName, b.gateway), Ok(g))
    ensures s.sh.log[i].op.pid in s.sh.db.payments
    ensures var p := s.sh.db.payments[s.sh.log[i].op.pid];
      && p.orderId == b.orderId && p.customerId == b.customerId && p.amount == Units(b.amount)
      && p.currency == Upper(Trim(b.currency)) && p.gateway == g.name && p.correlationId == Stored(correlationId)
      && p.key == Stored(if !Blank(header) then header else if !Blank(fallback) then fallback else b.key)
  {
    g := ChargesAreStored(cfg, ls, s, i);
    KeyChosen(header, fallback, b.key);
    StoresText(correlationId);
    StoresText(ChooseKey(header, fallback, b.key));
  }

  /** A refund request that passes validation and whose call commits is stored as its path, body and headers say. */
  lemma RefundBodyStored(cfg: Config, ls: seq<Label>, s: State, i: nat, paymentId: Id, b: RefundBody, userId: string,
                         correlationId: string)
    requires Reaches(cfg, ls, s) && i < |s.sh.log| && s.sh.log[i].op.RefundOp?
    requires ValidateRefund(b) == None && s.sh.log[i].cid in s.calls
    requires s.calls[s.sh.log[i].cid].req == RefundReq(RefundArgsOf(paymentId, b, userId, correlationId))
    ensures s.sh.log[i].op.rid in s.sh.db.refunds && paymentId in s.sh.db.payments
    ensures var r := s.sh.db.refunds[s.sh.log[i].op.rid];
      && r.paymentId == paymentId && r.amount == Units(b.amount) && r.reason == Stored(b.reason)
      && r.currency == s.sh.db.payments[paymentId].currency
      && r.initiatedBy == Stored(userId) && r.correlationId == Stored(correlationId)
  {
    RefundsAreStored(cfg, ls, s, i);
    StoresText(b.reason);
    StoresText(userId);
    StoresText(correlationId);
  }
}
