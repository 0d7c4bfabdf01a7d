/**
  Every interleaving of the concurrent calls is a sequence of the atomic operations.

  The proof is by rely and guarantee: `CallInv` says what a call knows at each program counter, `Guarantee` what a step
  of one call promises all the others, and a call's knowledge survives any step that keeps the promise.
*/
module Refinement {
  import opened Base
  import opened Text
  import opened Routing
  import opened Domain
  import opened Protocol

  // ---------- What the shared state satisfies ----------

  /**
    The gateway call behind a committed event: made by the same call, for the same amount, with the recorded result.
  */
  ghost predicate GatewayMatches(cfg: Config, sh: Shared, e: Event) {
    match e.op
    case ChargeOp(_, _, _, res, gi) =>
      && e.req.PayReq? && gi < |sh.gateway| && GetGatewayOrDefault(cfg.router, e.req.pay.gateway).Ok?
      && sh.gateway[gi] == ChargeCall(e.cid, GetGatewayOrDefault(cfg.router, e.req.pay.gateway).value,
                                      e.req.pay.amount, Upper(Trim(e.req.pay.currency)), res)
    case RefundOp(_, _, _, res, gi) =>
      && e.req.RefundReq? && RefundCalled(cfg, sh, e.cid, e.req.refund, res, gi)
    case StatusOp => true
    case ReadOp => true
  }

  /** The refund was sent to the gateway that the payment row names, against that row's charge. */
  ghost predicate RefundCalled(cfg: Config, sh: Shared, c: CallId, a: RefundArgs, res: GatewayResult, gi: nat) {
    && gi < |sh.gateway| && a.paymentId in sh.db.payments
    && var row := sh.db.payments[a.paymentId];
    && GetGateway(cfg.router, row.gateway).Ok?
    && sh.gateway[gi] == RefundCall(c, GetGateway(cfg.router, row.gateway).value, row.gatewayTxn, a.amount,
                                    row.currency, res)
  }

  ghost predicate IdsMatch(sh: Shared) {
    && (forall p :: p in sh.db.payments ==>
          p in sh.owner && sh.db.payments[p].id == p && sh.db.payments[p].createdAt < sh.clock)
    && (forall r :: r in sh.db.refunds ==> r in sh.owner && sh.db.refunds[r].id == r)
    && (forall t :: t in sh.db.txns ==> t in sh.owner)
  }

  ghost predicate SharedInv(cfg: Config, sh: Shared) {
    && Replay(cfg, sh.log) == Some(sh.db)
    && IdsMatch(sh)
    && (forall i :: 0 <= i < |sh.log| ==> GatewayMatches(cfg, sh, sh.log[i]))
  }

  // ---------- What a call knows at each program counter ----------

  ghost predicate HoldsNothing(sh: Shared, c: CallId) {
    && (forall p :: p in sh.locks ==> sh.locks[p] != c)
    && (forall k :: k in sh.keys ==> sh.keys[k] != c)
  }

  ghost predicate Idle(sh: Shared, c: CallId, call: Call) {
    call.buf == EMPTY_DB && HoldsNothing(sh, c)
  }

  predicate Owns(sh: Shared, c: CallId, id: Id) {
    id in sh.owner && sh.owner[id] == c
  }

  ghost predicate NoEvent(sh: Shared, c: CallId) {
    forall i :: 0 <= i < |sh.log| ==> sh.log[i].cid != c
  }

  ghost predicate AtMostOneEvent(sh: Shared, c: CallId) {
    forall i, j :: 0 <= i < |sh.log| && 0 <= j < |sh.log| && sh.log[i].cid == c && sh.log[j].cid == c ==> i == j
  }

  /** The call took effect exactly once, at log position `at`, after it began, and there gave the answer `resp`. */
  ghost predicate Answered(sh: Shared, c: CallId, call: Call, resp: Response, at: nat) {
    && call.start <= at < |sh.log| && sh.log[at].cid == c && sh.log[at].req == call.req && sh.log[at].resp == resp
    && forall i :: 0 <= i < |sh.log| && sh.log[i].cid == c ==> i == at
  }

  ghost predicate PayDraft(cfg: Config, sh: Shared, c: CallId, a: PayArgs, p: Payment, st: PaymentStatus) {
    && GetGatewayOrDefault(cfg.router, a.gateway).Ok?
    && p == NewPayment(a, p.id, p.createdAt, GetGatewayOrDefault(cfg.router, a.gateway).value.name).(status := st)
    && Owns(sh, c, p.id) && p.id !in sh.db.payments && p.createdAt < sh.clock
  }

  ghost predicate ChargeCalled(cfg: Config, sh: Shared, c: CallId, a: PayArgs, res: GatewayResult, gi: nat) {
    && GetGatewayOrDefault(cfg.router, a.gateway).Ok? && gi < |sh.gateway|
    && sh.gateway[gi] == ChargeCall(c, GetGatewayOrDefault(cfg.router, a.gateway).value, a.amount,
                                    Upper(Trim(a.currency)), res)
  }

  ghost predicate KeyHeld(sh: Shared, c: CallId, p: Payment) {
    && FitsNumeric(p.amount)
    && (p.key.Some? ==> p.key.value in sh.keys && sh.keys[p.key.value] == c && KeyFree(sh.db, p.key.value))
  }

  ghost predicate NewTxnId(sh: Shared, c: CallId, tid: Id) {
    Owns(sh, c, tid) && tid !in sh.db.txns
  }

  ghost predicate PayOutsideTx(cfg: Config, sh: Shared, c: CallId, call: Call)
    requires call.req.PayReq?
  {
    var a := call.req.pay;
    match call.pc
    case PayLookup => Idle(sh, c, call) && NoEvent(sh, c)
    case PayOrder => Idle(sh, c, call) && NoEvent(sh, c)
    case PayGateway(g, p) =>
      Idle(sh, c, call) && NoEvent(sh, c) && PayDraft(cfg, sh, c, a, p, Pending)
      && GetGatewayOrDefault(cfg.router, a.gateway) == Ok(g)
    case PayBegin(p, res, gi) =>
      Idle(sh, c, call) && NoEvent(sh, c) && PayDraft(cfg, sh, c, a, p, Pending) && ChargeCalled(cfg, sh, c, a, res, gi)
    case PayInsert(p, res, gi) =>
      Idle(sh, c, call) && NoEvent(sh, c) && PayDraft(cfg, sh, c, a, p, Pending) && ChargeCalled(cfg, sh, c, a, res, gi)
    case PayRecover =>
      Idle(sh, c, call) && NoEvent(sh, c) && NullString(a.key).Some? && !KeyFree(sh.db, NullString(a.key).value)
    case Aborting(e, at) =>
      && NoEvent(sh, c) && (e == StoreFailure || e == UniqueViolation)
      && (e == UniqueViolation ==> NullString(a.key).Some? && !KeyFree(sh.db, NullString(a.key).value))
    case Done(resp, at) => DoneInv(sh, c, call, resp, at)
    case Gone => Idle(sh, c, call) && AtMostOneEvent(sh, c)
    case _ => false
  }

  ghost predicate PayInTx(cfg: Config, sh: Shared, c: CallId, call: Call)
    requires call.req.PayReq?
  {
    var a := call.req.pay;
    match call.pc
    case PayMark(p, res, gi) =>
      && NoEvent(sh, c) && PayDraft(cfg, sh, c, a, p, Pending) && ChargeCalled(cfg, sh, c, a, res, gi)
      && KeyHeld(sh, c, p) && call.buf == Db(map[p.id := p], map[], map[])
    case PayAudit(p, res, gi) =>
      && NoEvent(sh, c) && PayDraft(cfg, sh, c, a, p, Processing) && ChargeCalled(cfg, sh, c, a, res, gi)
      && KeyHeld(sh, c, p) && call.buf == Db(map[p.id := p], map[], map[])
    case PayFinish(p, res, gi, tid) =>
      && NoEvent(sh, c) && PayDraft(cfg, sh, c, a, p, Processing) && ChargeCalled(cfg, sh, c, a, res, gi)
      && KeyHeld(sh, c, p) && NewTxnId(sh, c, tid)
      && call.buf == Db(map[p.id := p], map[], map[tid := ChargeRow(a, p, tid, res)])
    case PayCommit(p, res, gi, tid) =>
      && NoEvent(sh, c) && ChargeCalled(cfg, sh, c, a, res, gi)
      && p == Charged(NewPayment(a, p.id, p.createdAt, GetGatewayOrDefault(cfg.router, a.gateway).value.name), res)
      && Owns(sh, c, p.id) && p.id !in sh.db.payments && p.createdAt < sh.clock
      && KeyHeld(sh, c, p) && NewTxnId(sh, c, tid)
      && call.buf == Db(map[p.id := p], map[], map[tid := ChargeRow(a, p, tid, res)])
    case _ => false
  }

  ghost predicate PayInv(cfg: Config, sh: Shared, c: CallId, call: Call)
    requires call.req.PayReq?
  {
    PayOutsideTx(cfg, sh, c, call) || PayInTx(cfg, sh, c, call)
  }

  ghost predicate DoneInv(sh: Shared, c: CallId, call: Call, resp: Response, at: nat) {
    Idle(sh, c, call)
    && if resp == Rejected(StoreFailure) then AtMostOneEvent(sh, c) else Answered(sh, c, call, resp, at)
  }

  /**
    The refund row being built: its currency and gateway, read before the lock, are those of the current payment row.
  */
  ghost predicate RefundDraft(sh: Shared, c: CallId, a: RefundArgs, r: Refund, st: RefundStatus) {
    && a.paymentId in sh.db.payments
    && r == NewRefund(a, r.id, r.createdAt, sh.db.payments[a.paymentId].currency).(status := st)
    && Owns(sh, c, r.id) && r.id !in sh.db.refunds
  }

  ghost predicate GatewayFor(cfg: Config, sh: Shared, a: RefundArgs, g: Gateway) {
    a.paymentId in sh.db.payments && GetGateway(cfg.router, sh.db.payments[a.paymentId].gateway) == Ok(g)
  }

  ghost predicate Locked(sh: Shared, c: CallId, a: RefundArgs) {
    && a.paymentId in sh.locks && sh.locks[a.paymentId] == c && a.paymentId in sh.db.payments
    && Refundable(sh.db.payments[a.paymentId].status)
  }

  ghost predicate LockedRow(sh: Shared, a: RefundArgs, locked: Payment, st: PaymentStatus) {
    a.paymentId in sh.db.payments && locked == sh.db.payments[a.paymentId].(status := st)
  }

  ghost predicate Affordable(sh: Shared, a: RefundArgs, remaining: int) {
    && a.paymentId in sh.db.payments
    && remaining == sh.db.payments[a.paymentId].amount - Total(sh.db.refunds, a.paymentId)
    && a.amount <= remaining
  }

  ghost predicate RefundOutsideTx(cfg: Config, sh: Shared, c: CallId, call: Call)
    requires call.req.RefundReq?
  {
    var a := call.req.refund;
    match call.pc
    case RefundLookup => Idle(sh, c, call) && NoEvent(sh, c)
    case RefundRead => Idle(sh, c, call) && NoEvent(sh, c)
    case RefundBegin(g, r) =>
      Idle(sh, c, call) && NoEvent(sh, c) && RefundDraft(sh, c, a, r, RefPending) && GatewayFor(cfg, sh, a, g)
    case RefundLock(g, r) =>
      Idle(sh, c, call) && NoEvent(sh, c) && RefundDraft(sh, c, a, r, RefPending) && GatewayFor(cfg, sh, a, g)
    case Aborting(e, at) =>
      if e == StoreFailure then NoEvent(sh, c) else Answered(sh, c, call, Rejected(e), at)
    case Done(resp, at) => DoneInv(sh, c, call, resp, at)
    case Gone => Idle(sh, c, call) && AtMostOneEvent(sh, c)
    case _ => false
  }

  ghost predicate RefundInTx(cfg: Config, sh: Shared, c: CallId, call: Call)
    requires call.req.RefundReq?
  {
    var a := call.req.refund;
    match call.pc
    case RefundFold(g, r, locked) =>
      && NoEvent(sh, c) && RefundDraft(sh, c, a, r, RefPending) && GatewayFor(cfg, sh, a, g) && Locked(sh, c, a)
      && LockedRow(sh, a, locked, sh.db.payments[a.paymentId].status) && call.buf == EMPTY_DB
    case RefundCreate(g, r, locked, remaining) =>
      && NoEvent(sh, c) && RefundDraft(sh, c, a, r, RefPending) && GatewayFor(cfg, sh, a, g) && Locked(sh, c, a)
      && LockedRow(sh, a, locked, sh.db.payments[a.paymentId].status) && Affordable(sh, a, remaining)
      && call.buf == EMPTY_DB
    case RefundMark(g, r, locked, remaining) =>
      && NoEvent(sh, c) && RefundDraft(sh, c, a, r, RefPending) && GatewayFor(cfg, sh, a, g) && Locked(sh, c, a)
      && LockedRow(sh, a, locked, sh.db.payments[a.paymentId].status) && Affordable(sh, a, remaining)
      && call.buf == Db(map[], map[r.id := r], map[])
    case RefundProcess(g, r, locked, remaining) =>
      && NoEvent(sh, c) && RefundDraft(sh, c, a, r, RefPending) && GatewayFor(cfg, sh, a, g) && Locked(sh, c, a)
      && LockedRow(sh, a, locked, RefundPending) && Affordable(sh, a, remaining)
      && call.buf == Db(map[a.paymentId := locked], map[r.id := r], map[])
    case RefundGateway(g, r, locked, remaining) =>
      && NoEvent(sh, c) && RefundDraft(sh, c, a, r, RefProcessing) && GatewayFor(cfg, sh, a, g) && Locked(sh, c, a)
      && LockedRow(sh, a, locked, RefundPending) && Affordable(sh, a, remaining)
      && call.buf == Db(map[a.paymentId := locked], map[r.id := r], map[])
    case RefundAudit(r, locked, remaining, res, gi) =>
      && NoEvent(sh, c) && RefundDraft(sh, c, a, r, RefProcessing) && RefundCalled(cfg, sh, c, a, res, gi)
      && Locked(sh, c, a)
      && LockedRow(sh, a, locked, RefundPending) && Affordable(sh, a, remaining)
      && call.buf == Db(map[a.paymentId := locked], map[r.id := r], map[])
    case RefundFinish(r, locked, remaining, res, gi, tid) =>
      && NoEvent(sh, c) && RefundDraft(sh, c, a, r, RefProcessing) && RefundCalled(cfg, sh, c, a, res, gi)
      && Locked(sh, c, a)
      && LockedRow(sh, a, locked, RefundPending) && Affordable(sh, a, remaining) && NewTxnId(sh, c, tid)
      && call.buf == Db(map[a.paymentId := locked], map[r.id := r],
                        map[tid := RefundRow(a, r.id, tid, r.currency, res)])
    case RefundStore(r, res, gi, tid) =>
      && SettledInv(cfg, sh, c, a, r, res, gi, tid)
      && r.id in call.buf.refunds && SettledBuf(sh, a, r, res, tid, call.buf.(refunds := map[r.id := r]))
      && call.buf.refunds.Keys == {r.id}
    case RefundCommit(r, res, gi, tid) =>
      SettledInv(cfg, sh, c, a, r, res, gi, tid) && SettledBuf(sh, a, r, res, tid, call.buf)
    case _ => false
  }

  ghost predicate RefundInv(cfg: Config, sh: Shared, c: CallId, call: Call)
    requires call.req.RefundReq?
  {
    RefundOutsideTx(cfg, sh, c, call) || RefundInTx(cfg, sh, c, call)
  }

  ghost predicate SettledInv(cfg: Config, sh: Shared, c: CallId, a: RefundArgs, r: Refund, res: GatewayResult, gi: nat,
                             tid: Id) {
    && NoEvent(sh, c) && RefundCalled(cfg, sh, c, a, res, gi) && Locked(sh, c, a)
    && r == Settled(NewRefund(a, r.id, r.createdAt, sh.db.payments[a.paymentId].currency), res)
    && Owns(sh, c, r.id) && r.id !in sh.db.refunds && NewTxnId(sh, c, tid)
    && a.amount <= sh.db.payments[a.paymentId].amount - Total(sh.db.refunds, a.paymentId)
  }

  ghost predicate SettledBuf(sh: Shared, a: RefundArgs, r: Refund, res: GatewayResult, tid: Id, buf: Db) {
    && a.paymentId in sh.db.payments
    && var row := sh.db.payments[a.paymentId];
    && var st := StatusAfter(a.amount, row.amount - Total(sh.db.refunds, a.paymentId), res);
    && buf == Db(map[a.paymentId := row.(status := st)],
                 map[r.id := r], map[tid := RefundRow(a, r.id, tid, r.currency, res)])
  }

  ghost predicate StatusCallInv(cfg: Config, sh: Shared, c: CallId, call: Call)
    requires call.req.StatusReq?
  {
    match call.pc
    case StatusRead => Idle(sh, c, call) && NoEvent(sh, c) && cfg.admin
    case StatusWrite(p) =>
      && Idle(sh, c, call) && NoEvent(sh, c) && cfg.admin
      && call.req.paymentId in sh.db.payments && p == sh.db.payments[call.req.paymentId].(status := call.req.status)
    case Done(resp, at) => DoneInv(sh, c, call, resp, at)
    case Gone => Idle(sh, c, call) && AtMostOneEvent(sh, c)
    case _ => false
  }

  ghost predicate CallInv(cfg: Config, sh: Shared, c: CallId, call: Call) {
    && call.start <= |sh.log| && Admissible(call.req)
    && match call.req
       case PayReq(_) => PayInv(cfg, sh, c, call)
       case RefundReq(_) => RefundInv(cfg, sh, c, call)
       case StatusReq(_, _) => StatusCallInv(cfg, sh, c, call)
  }

  // ---------- What a step of call `c` promises the others ----------

  /** Logs only grow, and only by events of `c`. */
  ghost predicate LogGrows(sh: Shared, sh': Shared, c: CallId) {
    && |sh.log| <= |sh'.log| && |sh.gateway| <= |sh'.gateway| && sh.clock <= sh'.clock
    && (forall i :: 0 <= i < |sh.log| ==> sh'.log[i] == sh.log[i])
    && (forall i :: |sh.log| <= i < |sh'.log| ==> sh'.log[i].cid == c)
    && (forall i :: 0 <= i < |sh.gateway| ==> sh'.gateway[i] == sh.gateway[i])
    && (forall i :: |sh.gateway| <= i < |sh'.gateway| ==> sh'.gateway[i].cid == c)
  }

  /** The locks and keys of other calls stay theirs, and nobody is given one. */
  ghost predicate LocksKept(sh: Shared, sh': Shared, c: CallId) {
    && (forall p :: p in sh.locks && sh.locks[p] != c ==> p in sh'.locks && sh'.locks[p] == sh.locks[p])
    && (forall p :: p in sh'.locks && sh'.locks[p] != c ==> p in sh.locks && sh'.locks[p] == sh.locks[p])
    && (forall k :: k in sh.keys && sh.keys[k] != c ==> k in sh'.keys && sh'.keys[k] == sh.keys[k])
    && (forall k :: k in sh'.keys && sh'.keys[k] != c ==> k in sh.keys && sh'.keys[k] == sh.keys[k])
  }

  /** Refund rows stay as they are; payment rows change at most their status, and rows locked by others not at all. */
  ghost predicate RowsKept(sh: Shared, sh': Shared, c: CallId) {
    && (forall p :: p in sh.db.payments ==>
          p in sh'.db.payments && SameButStatus(sh.db.payments[p], sh'.db.payments[p]))
    && (forall r :: r in sh.db.refunds ==> r in sh'.db.refunds && sh'.db.refunds[r] == sh.db.refunds[r])
    && (forall p :: p in sh.locks && sh.locks[p] != c && p in sh.db.payments ==>
          sh'.db.payments[p] == sh.db.payments[p])
    && (forall p :: p in sh.locks && sh.locks[p] != c ==> Total(sh'.db.refunds, p) == Total(sh.db.refunds, p))
  }

  /** Rows are inserted only under ids that `c` drew, and never under a key that another call holds. */
  ghost predicate InsertsOwn(sh: Shared, sh': Shared, c: CallId) {
    && (forall id :: id in sh.owner ==> id in sh'.owner && sh'.owner[id] == sh.owner[id])
    && (forall p :: p in sh'.db.payments && p !in sh.db.payments ==> Owns(sh', c, p))
    && (forall r :: r in sh'.db.refunds && r !in sh.db.refunds ==> Owns(sh', c, r))
    && (forall t :: t in sh'.db.txns && t !in sh.db.txns ==> Owns(sh', c, t))
    && (forall k :: k in sh.keys && sh.keys[k] != c && KeyFree(sh.db, k) ==> KeyFree(sh'.db, k))
  }

  ghost predicate Guarantee(sh: Shared, sh': Shared, c: CallId) {
    LogGrows(sh, sh', c) && LocksKept(sh, sh', c) && RowsKept(sh, sh', c) && InsertsOwn(sh, sh', c)
  }

  lemma GrowthTransitive(a: Shared, b: Shared, d: Shared, c: CallId)
    requires LogGrows(a, b, c) && LocksKept(a, b, c) && LogGrows(b, d, c) && LocksKept(b, d, c)
    ensures LogGrows(a, d, c) && LocksKept(a, d, c)
  {
  }

  lemma RowsTransitive(a: Shared, b: Shared, d: Shared, c: CallId)
    requires LocksKept(a, b, c) && RowsKept(a, b, c) && RowsKept(b, d, c)
    ensures RowsKept(a, d, c)
  {
  }

  lemma InsertsTransitive(a: Shared, b: Shared, d: Shared, c: CallId)
    requires LocksKept(a, b, c) && InsertsOwn(a, b, c) && InsertsOwn(b, d, c)
    ensures InsertsOwn(a, d, c)
  {
  }

  lemma GuaranteeTransitive(a: Shared, b: Shared, d: Shared, c: CallId)
    requires Guarantee(a, b, c) && Guarantee(b, d, c)
    ensures Guarantee(a, d, c)
  {
    GrowthTransitive(a, b, d, c);
    RowsTransitive(a, b, d, c);
    InsertsTransitive(a, b, d, c);
  }

  // ---------- Knowledge survives the steps of others ----------

  lemma KeyStaysTaken(sh: Shared, sh': Shared, c: CallId, k: string)
    requires RowsKept(sh, sh', c) && !KeyFree(sh.db, k)
    ensures !KeyFree(sh'.db, k)
  {
    var p :| p in sh.db.payments && sh.db.payments[p].key == Some(k);
    assert sh'.db.payments[p].key == Some(k);
  }

  lemma EventsStable(sh: Shared, sh': Shared, c: CallId, d: CallId, call: Call)
    requires c != d && LogGrows(sh, sh', c) && LocksKept(sh, sh', c)
    ensures NoEvent(sh, d) ==> NoEvent(sh', d)
    ensures AtMostOneEvent(sh, d) ==> AtMostOneEvent(sh', d)
    ensures Idle(sh, d, call) ==> Idle(sh', d, call)
    ensures forall resp, at :: Answered(sh, d, call, resp, at) ==> Answered(sh', d, call, resp, at)
    ensures forall resp, at :: DoneInv(sh, d, call, resp, at) ==> DoneInv(sh', d, call, resp, at)
  {
  }

  lemma PayStable(cfg: Config, sh: Shared, sh': Shared, c: CallId, d: CallId, call: Call)
    requires c != d && Guarantee(sh, sh', c) && call.req.PayReq? && PayOutsideTx(cfg, sh, d, call)
    ensures PayOutsideTx(cfg, sh', d, call)
  {
    EventsStable(sh, sh', c, d, call);
    if NullString(call.req.pay.key).Some? && !KeyFree(sh.db, NullString(call.req.pay.key).value) {
      KeyStaysTaken(sh, sh', c, NullString(call.req.pay.key).value);
    }
  }

  lemma PayTxStable(cfg: Config, sh: Shared, sh': Shared, c: CallId, d: CallId, call: Call)
    requires c != d && Guarantee(sh, sh', c) && call.req.PayReq? && PayInTx(cfg, sh, d, call)
    ensures PayInTx(cfg, sh', d, call)
  {
    EventsStable(sh, sh', c, d, call);
  }

  lemma RefundStable(cfg: Config, sh: Shared, sh': Shared, c: CallId, d: CallId, call: Call)
    requires c != d && Guarantee(sh, sh', c) && call.req.RefundReq? && RefundOutsideTx(cfg, sh, d, call)
    ensures RefundOutsideTx(cfg, sh', d, call)
  {
    EventsStable(sh, sh', c, d, call);
  }

  /** While the row lock is held, neither the payment row nor the total of its refunds moves. */
  lemma LockedStable(sh: Shared, sh': Shared, c: CallId, d: CallId, a: RefundArgs)
    requires c != d && Guarantee(sh, sh', c) && Locked(sh, d, a)
    ensures Locked(sh', d, a)
    ensures sh'.db.payments[a.paymentId] == sh.db.payments[a.paymentId]
    ensures Total(sh'.db.refunds, a.paymentId) == Total(sh.db.refunds, a.paymentId)
  {
  }

  lemma RefundOpenStable(cfg: Config, sh: Shared, sh': Shared, c: CallId, d: CallId, call: Call)
    requires c != d && Guarantee(sh, sh', c) && call.req.RefundReq? && RefundInTx(cfg, sh, d, call)
    requires call.pc.RefundFold? || call.pc.RefundCreate? || call.pc.RefundMark? || call.pc.RefundProcess?
             || call.pc.RefundGateway?
    ensures RefundInTx(cfg, sh', d, call)
  {
    EventsStable(sh, sh', c, d, call);
    LockedStable(sh, sh', c, d, call.req.refund);
  }

  lemma RefundAskedStable(cfg: Config, sh: Shared, sh': Shared, c: CallId, d: CallId, call: Call)
    requires c != d && Guarantee(sh, sh', c) && call.req.RefundReq? && RefundInTx(cfg, sh, d, call)
    requires call.pc.RefundAudit? || call.pc.RefundFinish?
    ensures RefundInTx(cfg, sh', d, call)
  {
    EventsStable(sh, sh', c, d, call);
    LockedStable(sh, sh', c, d, call.req.refund);
  }

  lemma SettledStable(cfg: Config, sh: Shared, sh': Shared, c: CallId, d: CallId, a: RefundArgs, r: Refund,
                      res: GatewayResult, gi: nat, tid: Id, buf: Db)
    requires c != d && Guarantee(sh, sh', c)
    requires SettledInv(cfg, sh, d, a, r, res, gi, tid) && SettledBuf(sh, a, r, res, tid, buf)
    ensures SettledInv(cfg, sh', d, a, r, res, gi, tid) && SettledBuf(sh', a, r, res, tid, buf)
  {
    LockedStable(sh, sh', c, d, a);
  }

  lemma RefundSettledStable(cfg: Config, sh: Shared, sh': Shared, c: CallId, d: CallId, call: Call)
    requires c != d && Guarantee(sh, sh', c) && call.req.RefundReq? && RefundInTx(cfg, sh, d, call)
    requires call.pc.RefundStore? || call.pc.RefundCommit?
    ensures RefundInTx(cfg, sh', d, call)
  {
    var r := call.pc.r;
    var buf := if call.pc.RefundStore? then call.buf.(refunds := map[r.id := r]) else call.buf;
    SettledStable(cfg, sh, sh', c, d, call.req.refund, r, call.pc.res, call.pc.gi, call.pc.tid, buf);
  }

  lemma RefundTxStable(cfg: Config, sh: Shared, sh': Shared, c: CallId, d: CallId, call: Call)
    requires c != d && Guarantee(sh, sh', c) && call.req.RefundReq? && RefundInTx(cfg, sh, d, call)
    ensures RefundInTx(cfg, sh', d, call)
  {
    if call.pc.RefundAudit? || call.pc.RefundFinish? {
      RefundAskedStable(cfg, sh, sh', c, d, call);
    } else if call.pc.RefundStore? || call.pc.RefundCommit? {
      RefundSettledStable(cfg, sh, sh', c, d, call);
    } else {
      RefundOpenStable(cfg, sh, sh', c, d, call);
    }
  }

  lemma Stable(cfg: Config, sh: Shared, sh': Shared, c: CallId, d: CallId, call: Call)
    requires c != d && Guarantee(sh, sh', c) && CallInv(cfg, sh, d, call)
    ensures CallInv(cfg, sh', d, call)
  {
    match call.req
    case PayReq(_) =>
      if PayOutsideTx(cfg, sh, d, call) {
        PayStable(cfg, sh, sh', c, d, call);
      } else {
        PayTxStable(cfg, sh, sh', c, d, call);
      }
    case RefundReq(_) =>
      if RefundOutsideTx(cfg, sh, d, call) {
        RefundStable(cfg, sh, sh', c, d, call);
      } else {
        RefundTxStable(cfg, sh, sh', c, d, call);
      }
    case StatusReq(_, _) => EventsStable(sh, sh', c, d, call);
  }
}
