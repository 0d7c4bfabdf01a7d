/** What a request leaves behind, field by field, and why one is refused: each said without the procedures. */
module Records {
  import opened Base
  import opened Text
  import opened Routing
  import opened Domain

  // ---------- The rows of a payment ----------

  /** The payment row carries the request, and what gateway `g` answered; its status may have moved on since. */
  predicate PaymentRecords(p: Payment, a: PayArgs, pid: Id, now: nat, g: Gateway, res: GatewayResult) {
    && p.id == pid && p.createdAt == now && p.gateway == g.name
    && p.orderId == a.orderId && p.customerId == a.customerId && p.amount == a.amount
    && p.currency == Upper(Trim(a.currency))
    && p.correlationId == NullString(a.correlationId) && p.key == NullString(a.key)
    && (if res.success then
          && p.gatewayTxn == NullString(res.ref) && p.gatewayIntent == NullString(res.intent)
          && p.failureCode == None && p.failureReason == None
        else
          && p.gatewayTxn == None && p.gatewayIntent == None
          && p.failureCode == NullString(res.code) && p.failureReason == NullString(res.message))
  }

  /** Its audit row carries the amount charged and the gateway's answer. */
  predicate ChargeRecords(t: Txn, a: PayArgs, pid: Id, res: GatewayResult) {
    && t.kind == Charge && t.paymentId == pid && t.refundId == None
    && t.amount == a.amount && t.currency == Upper(Trim(a.currency)) && t.success == res.success
    && t.gatewayRef == NullString(res.ref)
    && t.errorCode == NullString(res.code) && t.errorMessage == NullString(res.message)
    && t.correlationId == NullString(a.correlationId)
  }

  /** A charge through gateway `g` adds these two rows, under ids that were free, and nothing else. */
  predicate ChargeLeaves(db: Db, a: PayArgs, pid: Id, tid: Id, now: nat, g: Gateway, res: GatewayResult, p: Payment,
                         db': Db) {
    && PaymentRecords(p, a, pid, now, g, res) && (p.status == if res.success then Completed else Failed)
    && tid in db'.txns && db'.txns[tid].id == tid && ChargeRecords(db'.txns[tid], a, pid, res)
    && pid !in db.payments && tid !in db.txns
    && db' == Db(db.payments[pid := p], db.refunds, db.txns[tid := db'.txns[tid]])
  }

  lemma ChargeWrites(router: Router, db: Db, a: PayArgs, pid: Id, tid: Id, now: nat, res: GatewayResult, db': Db,
                     p: Payment)
    returns (g: Gateway)
    requires AtomicCharge(router, db, a, pid, tid, now, res) == Ok((db', p))
    ensures Leads(router, AskedKey(router.defaultName, a.gateway), Ok(g))
    ensures ChargeLeaves(db, a, pid, tid, now, g, res, p, db')
  {
    ChoosesAsked(router, a.gateway);
    g := GetGatewayOrDefault(router, a.gateway).value;
  }

  // ---------- The rows of a refund ----------

  /** The refund row carries the request, the payment's currency, and what the gateway answered. */
  predicate RefundRecords(r: Refund, a: RefundArgs, rid: Id, now: nat, currency: string, res: GatewayResult) {
    && r.id == rid && r.createdAt == now && r.paymentId == a.paymentId
    && r.amount == a.amount && r.currency == currency
    && r.reason == NullString(a.reason) && r.initiatedBy == NullString(a.initiatedBy)
    && r.correlationId == NullString(a.correlationId)
    && (if res.success then
          && r.status == RefCompleted && r.gatewayRefund == NullString(res.ref)
          && r.failureCode == None && r.failureReason == None
        else
          && r.status == RefFailed && r.gatewayRefund == None
          && r.failureCode == NullString(res.code) && r.failureReason == NullString(res.message))
  }

  predicate RefundAuditRecords(t: Txn, a: RefundArgs, rid: Id, currency: string, res: GatewayResult) {
    && t.kind == RefundTxn && t.paymentId == a.paymentId && t.refundId == Some(rid)
    && t.amount == a.amount && t.currency == currency && t.success == res.success
    && t.gatewayRef == NullString(res.ref)
    && t.errorCode == NullString(res.code) && t.errorMessage == NullString(res.message)
    && t.correlationId == NullString(a.correlationId)
  }

  /** The status a refund leaves: failed, all refunded, or open for more. */
  ghost predicate StatusFollows(db: Db, a: RefundArgs, res: GatewayResult, st: PaymentStatus)
    requires a.paymentId in db.payments
  {
    var remaining := db.payments[a.paymentId].amount - Total(db.refunds, a.paymentId);
    && (st == RefundFailed <==> !res.success)
    && (st == Refunded <==> res.success && a.amount == remaining)
    && (st == Completed <==> res.success && a.amount < remaining)
  }

  /** A refund adds its two rows under ids that were free, moves the status of its payment and changes nothing else. */
  ghost predicate RefundLeaves(db: Db, a: RefundArgs, rid: Id, tid: Id, now: nat, res: GatewayResult, r: Refund,
                               db': Db) {
    && a.paymentId in db.payments && a.paymentId in db'.payments
    && var row, after := db.payments[a.paymentId], db'.payments[a.paymentId];
    && RefundRecords(r, a, rid, now, row.currency, res) && StatusFollows(db, a, res, after.status)
    && tid in db'.txns && db'.txns[tid].id == tid && RefundAuditRecords(db'.txns[tid], a, rid, row.currency, res)
    && rid !in db.refunds && tid !in db.txns
    && db' == Db(db.payments[a.paymentId := row.(status := after.status)], db.refunds[rid := r],
                 db.txns[tid := db'.txns[tid]])
  }

  lemma RefundWrites(router: Router, db: Db, a: RefundArgs, rid: Id, tid: Id, now: nat, res: GatewayResult, db': Db,
                     r: Refund)
    requires AtomicRefund(router, db, a, rid, tid, now, res) == Ok((db', r))
    ensures RefundLeaves(db, a, rid, tid, now, res, r, db')
  {
  }

  // ---------- Refusals ----------

  /** Why refund `a` is refused on tables `db` with error `e`: what the tables and the router say, for each error. */
  ghost predicate RefusedBecause(router: Router, db: Db, a: RefundArgs, e: Error) {
    if a.paymentId !in db.payments then e == PaymentNotFound
    else
      var row := db.payments[a.paymentId];
      match e
      case RefundNotAllowed => row.status != Completed && row.status != RefundPending
      case UnknownGateway =>
        (row.status == Completed || row.status == RefundPending) && Leads(router, Lower(row.gateway), Fail(e))
      case GatewayNotEnabled =>
        (row.status == Completed || row.status == RefundPending) && Leads(router, Lower(row.gateway), Fail(e))
      case RefundExceedsRemaining =>
        && (row.status == Completed || row.status == RefundPending)
        && (exists g :: Leads(router, Lower(row.gateway), Ok(g)))
        && a.amount > row.amount - Total(db.refunds, a.paymentId)
      case _ => false
  }

  /** The checks of a refund refuse with an error exactly when the tables call for it. */
  lemma RefusedIffBecause(router: Router, db: Db, a: RefundArgs, e: Error)
    ensures RefundCheck(router, db, a) == Fail(e) <==> RefusedBecause(router, db, a, e)
  {
    if a.paymentId in db.payments {
      FindsByName(router, db.payments[a.paymentId].gateway);
    }
  }

  /** They pass exactly when the payment is there, refundable, with its gateway, and what remains covers the amount. */
  lemma AcceptedIff(router: Router, db: Db, a: RefundArgs)
    ensures RefundCheck(router, db, a).Ok? <==>
              && a.paymentId in db.payments
              && var row := db.payments[a.paymentId];
              && (row.status == Completed || row.status == RefundPending)
              && Lower(row.gateway) in router.gateways && router.gateways[Lower(row.gateway)].enabled
              && a.amount <= row.amount - Total(db.refunds, a.paymentId)
  {
    if a.paymentId in db.payments {
      FindsByName(router, db.payments[a.paymentId].gateway);
    }
  }

  /** Payment `a` is refused with error `e`: its key is taken, or the gateway asked for is not there. */
  ghost predicate PaymentRefusedBecause(router: Router, db: Db, a: PayArgs, e: Error) {
    match e
    case UniqueViolation =>
      !Blank(a.key) && exists p :: p in db.payments && db.payments[p].key == Some(Trim(a.key))
    case UnknownGateway => Leads(router, AskedKey(router.defaultName, a.gateway), Fail(e)) && OrderOpen(db, a.orderId)
    case GatewayNotEnabled =>
      Leads(router, AskedKey(router.defaultName, a.gateway), Fail(e)) && OrderOpen(db, a.orderId)
    case _ => false
  }

  lemma PaymentRefusalHasReason(cfg: Config, db: Db, a: PayArgs, e: Error)
    requires ReadSpec(cfg, db, PayReq(a), Rejected(e))
    ensures PaymentRefusedBecause(cfg.router, db, a, e)
  {
    ChoosesAsked(cfg.router, a.gateway);
    var i, j := StoredOrNull(a.key);
  }
}
