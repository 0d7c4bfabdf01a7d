/** Rows, tables and the two procedures as single atomic operations. */
module Domain {
  import opened Base
  import opened Text
  import opened Sums
  import opened Routing

  type Id = nat

  datatype PaymentStatus = Pending | Processing | Completed | Failed | RefundPending | Refunded | RefundFailed

  datatype RefundStatus = RefPending | RefProcessing | RefCompleted | RefFailed

  /** Amounts are integers in units of 10^-4, the scale of the NUMERIC(19,4) columns. */
  datatype Payment = Payment(
    id: Id, orderId: string, customerId: string, amount: int, currency: string,
    status: PaymentStatus, gateway: string,
    gatewayTxn: Option<string>, gatewayIntent: Option<string>,
    failureCode: Option<string>, failureReason: Option<string>,
    createdAt: nat, correlationId: Option<string>, key: Option<string>)

  datatype Refund = Refund(
    id: Id, paymentId: Id, amount: int, currency: string, status: RefundStatus,
    reason: Option<string>, initiatedBy: Option<string>, gatewayRefund: Option<string>,
    failureCode: Option<string>, failureReason: Option<string>,
    createdAt: nat, correlationId: Option<string>)

  datatype TxnKind = Charge | RefundTxn

  datatype Txn = Txn(
    id: Id, paymentId: Id, refundId: Option<Id>, kind: TxnKind, amount: int, currency: string,
    success: bool, gatewayRef: Option<string>, errorCode: Option<string>, errorMessage: Option<string>,
    correlationId: Option<string>)

  datatype Db = Db(payments: map<Id, Payment>, refunds: map<Id, Refund>, txns: map<Id, Txn>)

  const EMPTY_DB := Db(map[], map[], map[])

  /** What a gateway answers; `ref` is its transaction or refund id. */
  datatype GatewayResult = GatewayResult(success: bool, ref: string, intent: string, code: string, message: string)

  datatype PayArgs = PayArgs(
    orderId: string, customerId: string, amount: int, currency: string,
    gateway: string, correlationId: string, key: string)

  datatype RefundArgs = RefundArgs(
    paymentId: Id, amount: int, reason: string, initiatedBy: string, correlationId: string)

  /** The largest value a NUMERIC(19,4) column holds is 10^19 - 1 units. */
  const NUMERIC_LIMIT := 10_000_000_000_000_000_000

  predicate FitsNumeric(units: int) {
    -NUMERIC_LIMIT < units < NUMERIC_LIMIT
  }

  /** The services accept an amount only after the handlers have checked its sign. */
  predicate ValidPay(a: PayArgs) {
    0 < a.amount
  }

  predicate ValidRefund(a: RefundArgs) {
    0 < a.amount
  }

  // ---------- Queries ----------

  function CompletedOf(p: Id): Refund -> int {
    (r: Refund) => if r.paymentId == p && r.status == RefCompleted then r.amount else 0
  }

  /** The sum of the COMPLETED refunds of payment `p`. */
  ghost function Total(refunds: map<Id, Refund>, p: Id): int {
    Sum(refunds, CompletedOf(p))
  }

  predicate KeyFree(db: Db, k: string) {
    forall p :: p in db.payments ==> db.payments[p].key != Some(k)
  }

  /** Does `found` answer the newest-first lookup by idempotency key? */
  predicate KeyLookup(db: Db, k: string, found: Option<Id>) {
    match found
    case None => KeyFree(db, k)
    case Some(p) =>
      && p in db.payments && db.payments[p].key == Some(k)
      && forall q :: q in db.payments && db.payments[q].key == Some(k) ==>
        db.payments[q].createdAt <= db.payments[p].createdAt
  }

  /** Is payment `p` the newest of its order? */
  predicate NewestOfOrder(db: Db, p: Id)
    requires p in db.payments
  {
    forall q :: q in db.payments && db.payments[q].orderId == db.payments[p].orderId
      ==> db.payments[q].createdAt <= db.payments[p].createdAt
  }

  /** Does `found` answer the newest-first lookup by order? */
  predicate OrderLookup(db: Db, orderId: string, found: Option<Id>) {
    match found
    case None => forall q :: q in db.payments ==> db.payments[q].orderId != orderId
    case Some(p) => p in db.payments && db.payments[p].orderId == orderId && NewestOfOrder(db, p)
  }

  /** Does `found` answer the newest-first lookup by correlation id? */
  predicate CorrelationLookup(db: Db, corr: string, found: Option<Id>) {
    match found
    case None => forall r :: r in db.refunds ==> db.refunds[r].correlationId != Some(corr)
    case Some(r) =>
      && r in db.refunds && db.refunds[r].correlationId == Some(corr)
      && forall q :: q in db.refunds && db.refunds[q].correlationId == Some(corr) ==>
        db.refunds[q].createdAt <= db.refunds[r].createdAt
  }

  /** No refund is found under the correlation id. */
  predicate NotYetRefunded(db: Db, a: RefundArgs) {
    Trim(a.correlationId) == "" || CorrelationLookup(db, a.correlationId, None)
  }

  /** The lookup by order lets a charge pass: `latest`, the newest payment of the order if there is one, is not live. */
  predicate NotLive(db: Db, orderId: string, latest: Option<Id>) {
    OrderLookup(db, orderId, latest) && (latest.Some? ==> db.payments[latest.value].status != Completed)
  }

  ghost predicate OrderOpen(db: Db, orderId: string) {
    exists latest :: NotLive(db, orderId, latest)
  }

  /** No payment holds the key, and the newest payment of the order, if any, is not COMPLETED. */
  ghost predicate MayCharge(db: Db, a: PayArgs) {
    (Trim(a.key) == "" || KeyLookup(db, a.key, None)) && OrderOpen(db, a.orderId)
  }

  /** Payment `p` was charged: its CHARGE row, which never changes, is successful. */
  predicate Collected(db: Db, p: Id) {
    exists t :: t in db.txns && db.txns[t].kind == Charge && db.txns[t].paymentId == p && db.txns[t].success
  }

  predicate Refundable(s: PaymentStatus) {
    s == Completed || s == RefundPending
  }

  // ---------- Rows written ----------

  /** Two versions of one payment row that differ at most in status. */
  predicate SameButStatus(p: Payment, q: Payment) {
    p.(status := q.status) == q
  }

  function NewPayment(a: PayArgs, id: Id, now: nat, gateway: string): Payment {
    Payment(id, a.orderId, a.customerId, a.amount, Upper(Trim(a.currency)), Pending, gateway,
            None, None, None, None, now, NullString(a.correlationId), NullString(a.key))
  }

  function Charged(p: Payment, res: GatewayResult): Payment {
    if res.success then
      p.(status := Completed, gatewayTxn := NullString(res.ref), gatewayIntent := NullString(res.intent),
         failureCode := None, failureReason := None)
    else
      p.(status := Failed, failureCode := NullString(res.code), failureReason := NullString(res.message))
  }

  function ChargeRow(a: PayArgs, p: Payment, tid: Id, res: GatewayResult): Txn {
    Txn(tid, p.id, None, Charge, p.amount, p.currency, res.success,
        NullString(res.ref), NullString(res.code), NullString(res.message), NullString(a.correlationId))
  }

  function NewRefund(a: RefundArgs, id: Id, now: nat, currency: string): Refund {
    Refund(id, a.paymentId, a.amount, currency, RefPending, NullString(a.reason), NullString(a.initiatedBy),
           None, None, None, now, NullString(a.correlationId))
  }

  function Settled(r: Refund, res: GatewayResult): Refund {
    if res.success then
      r.(status := RefCompleted, gatewayRefund := NullString(res.ref), failureCode := None, failureReason := None)
    else
      r.(status := RefFailed, failureCode := NullString(res.code), failureReason := NullString(res.message))
  }

  function StatusAfter(amount: int, remaining: int, res: GatewayResult): PaymentStatus {
    if !res.success then RefundFailed else if amount >= remaining then Refunded else Completed
  }

  function RefundRow(a: RefundArgs, rid: Id, tid: Id, currency: string, res: GatewayResult): Txn {
    Txn(tid, a.paymentId, Some(rid), RefundTxn, a.amount, currency, res.success,
        NullString(res.ref), NullString(res.code), NullString(res.message), NullString(a.correlationId))
  }

  // ---------- Atomic operations ----------

  /** A payment that reaches the insert, as one step: resolve the gateway, refuse a used key, insert the final rows. */
  ghost function AtomicCharge(router: Router, db: Db, a: PayArgs, pid: Id, tid: Id, now: nat, res: GatewayResult)
    : Result<(Db, Payment), Error>
  {
    match GetGatewayOrDefault(router, a.gateway)
    case Fail(e) => Fail(e)
    case Ok(g) =>
      var p := Charged(NewPayment(a, pid, now, g.name), res);
      if !FitsNumeric(a.amount) then Fail(StoreFailure)
      else if p.key.Some? && !KeyFree(db, p.key.value) then Fail(UniqueViolation)
      else if pid in db.payments || tid in db.txns then Fail(StoreFailure)
      else Ok((Db(db.payments[pid := p], db.refunds, db.txns[tid := ChargeRow(a, p, tid, res)]), p))
  }

  /** The checks a refund makes before it takes the lock. */
  function RefundPrecheck(router: Router, db: Db, a: RefundArgs): Result<(Payment, Gateway), Error> {
    if a.paymentId !in db.payments then Fail(PaymentNotFound)
    else
      var p := db.payments[a.paymentId];
      if !Refundable(p.status) then Fail(RefundNotAllowed)
      else
        match GetGateway(router, p.gateway)
        case Fail(e) => Fail(e)
        case Ok(g) => Ok((p, g))
  }

  /** All of a refund's checks, made at one moment. */
  ghost function RefundCheck(router: Router, db: Db, a: RefundArgs): Result<(Payment, Gateway), Error> {
    var pre := RefundPrecheck(router, db, a);
    if pre.Ok? && a.amount > pre.value.0.amount - Total(db.refunds, a.paymentId) then Fail(RefundExceedsRemaining)
    else pre
  }

  /** A whole refund as one step. */
  ghost function AtomicRefund(router: Router, db: Db, a: RefundArgs, rid: Id, tid: Id, now: nat, res: GatewayResult)
    : Result<(Db, Refund), Error>
  {
    match RefundCheck(router, db, a)
    case Fail(e) => Fail(e)
    case Ok((p, _)) =>
      var r := Settled(NewRefund(a, rid, now, p.currency), res);
      var p' := p.(status := StatusAfter(a.amount, p.amount - Total(db.refunds, a.paymentId), res));
      if rid in db.refunds || tid in db.txns then Fail(StoreFailure)
      else
        Ok((Db(db.payments[a.paymentId := p'], db.refunds[rid := r],
               db.txns[tid := RefundRow(a, rid, tid, p.currency, res)]), r))
  }

  /** UpdatePaymentStatus as one step. */
  function AtomicStatus(db: Db, pid: Id, st: PaymentStatus): Result<(Db, Payment), Error> {
    if pid !in db.payments then Fail(PaymentNotFound)
    else
      var p := db.payments[pid].(status := st);
      Ok((db.(payments := db.payments[pid := p]), p))
  }

  // ---------- Histories ----------

  type CallId = nat

  datatype Request =
    | PayReq(pay: PayArgs)
    | RefundReq(refund: RefundArgs)
    | StatusReq(paymentId: Id, status: PaymentStatus)

  datatype Response =
    | Paid(payment: Payment)
    | PaymentFound(found: Payment)
    | RefundMade(refund: Refund)
    | RefundFound(foundRefund: Refund)
    | StatusSet(updated: Payment)
    | Rejected(error: Error)

  /** What an event did; `gi` is the position of its gateway call in the record of gateway calls. */
  datatype Op =
    | ChargeOp(pid: Id, tid: Id, now: nat, res: GatewayResult, gi: nat)
    | RefundOp(rid: Id, tid: Id, now: nat, res: GatewayResult, gi: nat)
    | StatusOp
    | ReadOp

  datatype Event = Event(cid: CallId, req: Request, op: Op, resp: Response)

  /**
    What callers do.
    UpdatePaymentStatus: `admin`, they call it; `careful`, it writes a refundable status only to payments that were
    charged; `settled`, it writes no refundable status at all.
    Payments: `serialPay`, calls of one order do not overlap; `serialKeys`, calls of one idempotency key do not overlap;
    `trimmedKeys`, keys equal their own trim.
    Refunds: `serialRefund`, calls of one correlation id do not overlap; `trimmedIds`, ids equal their own trim.
  */
  datatype Config = Config(
    router: Router, admin: bool, careful: bool, settled: bool,
    serialPay: bool, serialKeys: bool, trimmedKeys: bool, serialRefund: bool, trimmedIds: bool)

  /** May a call that writes nothing answer `resp` when the tables are `db`? */
  ghost predicate ReadSpec(cfg: Config, db: Db, req: Request, resp: Response) {
    match req
    case PayReq(a) => (
      match resp
      case PaymentFound(p) =>
        && p.id in db.payments && db.payments[p.id] == p
        && (|| (Trim(a.key) != "" && KeyLookup(db, a.key, Some(p.id)))
            || (p.status == Completed && OrderLookup(db, a.orderId, Some(p.id))))
      case Rejected(e) =>
        if e == UniqueViolation then NullString(a.key).Some? && !KeyFree(db, NullString(a.key).value)
        else GetGatewayOrDefault(cfg.router, a.gateway) == Fail(e) && OrderOpen(db, a.orderId)
      case _ => false)
    case RefundReq(a) => (
      match resp
      case RefundFound(r) =>
        && r.id in db.refunds && db.refunds[r.id] == r
        && Trim(a.correlationId) != "" && CorrelationLookup(db, a.correlationId, Some(r.id))
      case Rejected(e) => RefundCheck(cfg.router, db, a) == Fail(e)
      case _ => false)
    case StatusReq(pid, _) => resp == Rejected(PaymentNotFound) && pid !in db.payments
  }

  /** The tables after event `e`, if the atomic operations give exactly that answer on `db`. */
  ghost function ApplyEvent(cfg: Config, db: Db, e: Event): Option<Db> {
    match e.op
    case ChargeOp(pid, tid, now, res, _) =>
      if e.req.PayReq? && ValidPay(e.req.pay) then
        var r := AtomicCharge(cfg.router, db, e.req.pay, pid, tid, now, res);
        if r.Ok? && e.resp == Paid(r.value.1) then Some(r.value.0) else None
      else None
    case RefundOp(rid, tid, now, res, _) =>
      if e.req.RefundReq? && ValidRefund(e.req.refund) then
        var r := AtomicRefund(cfg.router, db, e.req.refund, rid, tid, now, res);
        if r.Ok? && e.resp == RefundMade(r.value.1) then Some(r.value.0) else None
      else None
    case StatusOp =>
      if e.req.StatusReq? && cfg.admin then
        var r := AtomicStatus(db, e.req.paymentId, e.req.status);
        if r.Ok? && e.resp == StatusSet(r.value.1) then Some(r.value.0) else None
      else None
    case ReadOp => if ReadSpec(cfg, db, e.req, e.resp) then Some(db) else None
  }

  /** Runs the events of a history one after the other, from empty tables, with the atomic operations only. */
  ghost function Replay(cfg: Config, log: seq<Event>): Option<Db> {
    if log == [] then Some(EMPTY_DB)
    else
      var n := |log| - 1;
      match Replay(cfg, log[..n])
      case None => None
      case Some(db) => ApplyEvent(cfg, db, log[n])
  }

  /** A history that replays does so at every point. */
  lemma {:induction false} ReplayPrefix(cfg: Config, log: seq<Event>, n: nat)
    requires n <= |log| && Replay(cfg, log).Some?
    ensures Replay(cfg, log[..n]).Some?
    decreases |log|
  {
    if n < |log| {
      ReplayPrefix(cfg, log[..|log| - 1], n);
      assert log[..|log| - 1][..n] == log[..n];
    } else {
      assert log[..n] == log;
    }
  }

  lemma ReplayExtend(cfg: Config, log: seq<Event>, e: Event)
    ensures Replay(cfg, log + [e]) ==
            if Replay(cfg, log).None? then None else ApplyEvent(cfg, Replay(cfg, log).value, e)
  {
    assert (log + [e])[..|log|] == log;
  }
}

/** Every newest-first lookup has an answer. */
module Lookups {
  import opened Base
  import opened Domain

  /** Some row is the newest of any that qualify. */
  lemma {:induction false} NewestExists<T>(m: map<Id, T>, ids: set<Id>, at: T -> nat) returns (k: Id)
    requires ids != {} && ids <= m.Keys
    ensures k in ids && forall q :: q in ids ==> at(m[q]) <= at(m[k])
    decreases ids
  {
    k :| k in ids;
    if ids == {k} {
    } else {
      var j: Id := NewestExists(m, ids - {k}, at);
      k := if at(m[k]) <= at(m[j]) then j else k;
    }
  }

  lemma KeyLookupAnswers(db: Db, k: string) returns (found: Option<Id>)
    ensures KeyLookup(db, k, found)
  {
    var ids := set p | p in db.payments && db.payments[p].key == Some(k);
    if ids == {} {
      found := None;
      assert forall p :: p in db.payments && db.payments[p].key == Some(k) ==> p in ids;
    } else {
      var p := NewestExists(db.payments, ids, (p: Payment) => p.createdAt);
      found := Some(p);
    }
  }

  lemma OrderLookupAnswers(db: Db, orderId: string) returns (found: Option<Id>)
    ensures OrderLookup(db, orderId, found)
  {
    var ids := set p | p in db.payments && db.payments[p].orderId == orderId;
    if ids == {} {
      found := None;
      assert forall p :: p in db.payments && db.payments[p].orderId == orderId ==> p in ids;
    } else {
      var p := NewestExists(db.payments, ids, (p: Payment) => p.createdAt);
      found := Some(p);
    }
  }

  lemma CorrelationLookupAnswers(db: Db, corr: string) returns (found: Option<Id>)
    ensures CorrelationLookup(db, corr, found)
  {
    var ids := set r | r in db.refunds && db.refunds[r].correlationId == Some(corr);
    if ids == {} {
      found := None;
      assert forall r :: r in db.refunds && db.refunds[r].correlationId == Some(corr) ==> r in ids;
    } else {
      var r := NewestExists(db.refunds, ids, (r: Refund) => r.createdAt);
      found := Some(r);
    }
  }
}
