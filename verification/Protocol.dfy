/**
  The two services as concurrent calls over a transactional store.

  A step is one store call, one gateway call or the local code between two of them. Transactions run at READ
  COMMITTED: a call sees committed rows and its own writes, which other calls see only after it commits. FOR UPDATE
  and UPDATE take a row lock, an insert under the unique index holds its key, and both are held until the transaction
  ends. Any store call may fail, a commit may succeed and its reply be lost, and a call may vanish at any point.
*/
module Protocol {
  import opened Base
  import opened Text
  import opened Routing
  import opened Domain

  /** A call made to a payment provider: the effect it has there is not undone by a rollback. */
  datatype GatewayCall =
    | ChargeCall(cid: CallId, gateway: Gateway, amount: int, currency: string, result: GatewayResult)
    | RefundCall(cid: CallId, gateway: Gateway, chargeRef: Option<string>, amount: int, currency: string,
                 result: GatewayResult)

  /** `owner` records which call drew which UUID; `log` the point at which each call took effect. */
  datatype Shared = Shared(
    db: Db,
    locks: map<Id, CallId>,
    keys: map<string, CallId>,
    owner: map<Id, CallId>,
    clock: nat,
    gateway: seq<GatewayCall>,
    log: seq<Event>)

  /** Program counters, each with the local variables that are live there. */
  datatype Pc =
    | PayLookup
    | PayOrder
    | PayGateway(g: Gateway, p: Payment)
    | PayBegin(p: Payment, res: GatewayResult, gi: nat)
    | PayInsert(p: Payment, res: GatewayResult, gi: nat)
    | PayMark(p: Payment, res: GatewayResult, gi: nat)
    | PayAudit(p: Payment, res: GatewayResult, gi: nat)
    | PayFinish(p: Payment, res: GatewayResult, gi: nat, tid: Id)
    | PayCommit(p: Payment, res: GatewayResult, gi: nat, tid: Id)
    | PayRecover
    | RefundLookup
    | RefundRead
    | RefundBegin(g: Gateway, r: Refund)
    | RefundLock(g: Gateway, r: Refund)
    | RefundFold(g: Gateway, r: Refund, locked: Payment)
    | RefundCreate(g: Gateway, r: Refund, locked: Payment, remaining: int)
    | RefundMark(g: Gateway, r: Refund, locked: Payment, remaining: int)
    | RefundProcess(g: Gateway, r: Refund, locked: Payment, remaining: int)
    | RefundGateway(g: Gateway, r: Refund, locked: Payment, remaining: int)
    | RefundAudit(r: Refund, locked: Payment, remaining: int, res: GatewayResult, gi: nat)
    | RefundFinish(r: Refund, locked: Payment, remaining: int, res: GatewayResult, gi: nat, tid: Id)
    | RefundStore(r: Refund, res: GatewayResult, gi: nat, tid: Id)
    | RefundCommit(r: Refund, res: GatewayResult, gi: nat, tid: Id)
    | StatusRead
    | StatusWrite(p: Payment)
    | Aborting(error: Error, at: nat)
    | Done(resp: Response, at: nat)
    | Gone

  /** `buf` holds the uncommitted writes; `start` is the length of the log when the call began. */
  datatype Call = Call(req: Request, pc: Pc, buf: Db, start: nat) {
    predicate Finished() {
      pc.Done? || pc.Gone?
    }
  }

  /** What the environment decides at a step. */
  datatype Choice =
    | Go
    | Fresh(id: Id)
    | Found(row: Option<Id>)
    | FoundFresh(row: Option<Id>, id: Id)
    | Outcome(res: GatewayResult)
    | Fault
    | Lost
    | Crash

  datatype Next = Next(sh: Shared, call: Call)

  function Overlay(db: Db, buf: Db): Db {
    Db(db.payments + buf.payments, db.refunds + buf.refunds, db.txns + buf.txns)
  }

  function Release(sh: Shared, c: CallId): Shared {
    sh.(locks := map p | p in sh.locks && sh.locks[p] != c :: sh.locks[p],
        keys := map k | k in sh.keys && sh.keys[k] != c :: sh.keys[k])
  }

  function Draw(sh: Shared, c: CallId, id: Id): Shared {
    sh.(owner := sh.owner[id := c], clock := sh.clock + 1)
  }

  function Record(sh: Shared, e: Event): Shared {
    sh.(log := sh.log + [e])
  }

  function Goto(sh: Shared, call: Call, pc: Pc): Next {
    Next(sh, call.(pc := pc))
  }

  /** The call answers from what it has just read. */
  function Answer(sh: Shared, c: CallId, call: Call, resp: Response): Next {
    Goto(Record(sh, Event(c, call.req, ReadOp, resp)), call, Done(resp, |sh.log|))
  }

  /** The call returns a store error; nothing it did is committed. */
  function GiveUp(sh: Shared, call: Call): Next {
    Goto(sh, call, Done(Rejected(StoreFailure), 0))
  }

  /** A statement inside the transaction failed. */
  function FailInTx(sh: Shared, call: Call): Next {
    Goto(sh, call, Aborting(StoreFailure, 0))
  }

  /** The locked re-check rejects the refund: the answer is settled here, the rollback follows. */
  function RejectInTx(sh: Shared, c: CallId, call: Call, e: Error): Next {
    Goto(Record(sh, Event(c, call.req, ReadOp, Rejected(e))), call, Aborting(e, |sh.log|))
  }

  /** A successful statement inside the transaction: `buf` are the writes so far. */
  function Write(sh: Shared, call: Call, buf: Db, pc: Pc): Next {
    Next(sh, call.(buf := buf, pc := pc))
  }

  function EndTx(sh: Shared, c: CallId, call: Call, pc: Pc): Next {
    Next(Release(sh, c), call.(buf := EMPTY_DB, pc := pc))
  }

  function CommitStep(sh: Shared, c: CallId, call: Call, op: Op, resp: Response, ch: Choice): Option<Next> {
    var sh' := Record(sh.(db := Overlay(sh.db, call.buf)), Event(c, call.req, op, resp));
    match ch
    case Go => Some(EndTx(sh', c, call, Done(resp, |sh.log|)))
    case Lost => Some(EndTx(sh', c, call, Done(Rejected(StoreFailure), 0)))
    case Fault => Some(EndTx(sh, c, call, Done(Rejected(StoreFailure), 0)))
    case _ => None
  }

  // ---------- ProcessPayment ----------

  ghost function PayLookupStep(cfg: Config, sh: Shared, c: CallId, call: Call, ch: Choice): Option<Next>
    requires call.req.PayReq? && call.pc.PayLookup?
  {
    var a := call.req.pay;
    if Trim(a.key) == "" then
      if ch == Go then Some(Goto(sh, call, PayOrder)) else None
    else if ch == Fault then Some(GiveUp(sh, call))
    else if ch.Found? && KeyLookup(sh.db, a.key, ch.row) then
      if ch.row.None? then Some(Goto(sh, call, PayOrder))
      else Some(Answer(sh, c, call, PaymentFound(sh.db.payments[ch.row.value])))
    else None
  }

  ghost function PayOrderStep(cfg: Config, sh: Shared, c: CallId, call: Call, ch: Choice): Option<Next>
    requires call.req.PayReq? && call.pc.PayOrder?
  {
    var a := call.req.pay;
    if ch == Fault then Some(GiveUp(sh, call))
    else if ch.FoundFresh? && OrderLookup(sh.db, a.orderId, ch.row) && ch.id !in sh.owner then
      if ch.row.Some? && sh.db.payments[ch.row.value].status == Completed then
        Some(Answer(sh, c, call, PaymentFound(sh.db.payments[ch.row.value])))
      else (
        match GetGatewayOrDefault(cfg.router, a.gateway)
        case Fail(e) => Some(Answer(sh, c, call, Rejected(e)))
        case Ok(g) => Some(Goto(Draw(sh, c, ch.id), call, PayGateway(g, NewPayment(a, ch.id, sh.clock, g.name)))))
    else None
  }

  ghost function PayGatewayStep(cfg: Config, sh: Shared, c: CallId, call: Call, ch: Choice): Option<Next>
    requires call.req.PayReq? && call.pc.PayGateway?
  {
    var a := call.req.pay;
    var PayGateway(g, p) := call.pc;
    if ch.Outcome? then
      Some(Goto(sh.(gateway := sh.gateway + [ChargeCall(c, g, a.amount, p.currency, ch.res)]), call,
                PayBegin(p, ch.res, |sh.gateway|)))
    else None
  }

  ghost function PayBeginStep(cfg: Config, sh: Shared, c: CallId, call: Call, ch: Choice): Option<Next>
    requires call.req.PayReq? && call.pc.PayBegin?
  {
    var PayBegin(p, res, gi) := call.pc;
    if ch == Fault then Some(GiveUp(sh, call))
    else if ch == Go then Some(Goto(sh, call, PayInsert(p, res, gi)))
    else None
  }

  ghost function PayInsertStep(cfg: Config, sh: Shared, c: CallId, call: Call, ch: Choice): Option<Next>
    requires call.req.PayReq? && call.pc.PayInsert?
  {
    var PayInsert(p, res, gi) := call.pc;
    if ch == Fault then Some(FailInTx(sh, call))
    else if ch != Go then None
    else if !FitsNumeric(p.amount) then None
    else if p.key.Some? && p.key.value in sh.keys then None
    else if p.key.Some? && !KeyFree(sh.db, p.key.value) then Some(Goto(sh, call, Aborting(UniqueViolation, 0)))
    else
      Some(Write(if p.key.Some? then sh.(keys := sh.keys[p.key.value := c]) else sh, call,
                 call.buf.(payments := call.buf.payments[p.id := p]), PayMark(p, res, gi)))
  }

  ghost function PayMarkStep(cfg: Config, sh: Shared, c: CallId, call: Call, ch: Choice): Option<Next>
    requires call.req.PayReq? && call.pc.PayMark?
  {
    var PayMark(p, res, gi) := call.pc;
    var p' := p.(status := Processing);
    if ch == Fault then Some(FailInTx(sh, call))
    else if ch == Go then
      Some(Write(sh, call, call.buf.(payments := call.buf.payments[p.id := p']), PayAudit(p', res, gi)))
    else None
  }

  ghost function PayAuditStep(cfg: Config, sh: Shared, c: CallId, call: Call, ch: Choice): Option<Next>
    requires call.req.PayReq? && call.pc.PayAudit?
  {
    var a := call.req.pay;
    var PayAudit(p, res, gi) := call.pc;
    if ch == Fault then Some(FailInTx(sh, call))
    else if ch.Fresh? && ch.id !in sh.owner then
      Some(Write(Draw(sh, c, ch.id), call,
                 call.buf.(txns := call.buf.txns[ch.id := ChargeRow(a, p, ch.id, res)]), PayFinish(p, res, gi, ch.id)))
    else None
  }

  ghost function PayFinishStep(cfg: Config, sh: Shared, c: CallId, call: Call, ch: Choice): Option<Next>
    requires call.req.PayReq? && call.pc.PayFinish?
  {
    var PayFinish(p, res, gi, tid) := call.pc;
    var p' := Charged(p, res);
    if ch == Fault then Some(FailInTx(sh, call))
    else if ch == Go then
      Some(Write(sh, call, call.buf.(payments := call.buf.payments[p.id := p']), PayCommit(p', res, gi, tid)))
    else None
  }

  ghost function PayCommitStep(cfg: Config, sh: Shared, c: CallId, call: Call, ch: Choice): Option<Next>
    requires call.req.PayReq? && call.pc.PayCommit?
  {
    var PayCommit(p, res, gi, tid) := call.pc;
    CommitStep(sh, c, call, ChargeOp(p.id, tid, p.createdAt, res, gi), Paid(p), ch)
  }

  ghost function PayRecoverStep(cfg: Config, sh: Shared, c: CallId, call: Call, ch: Choice): Option<Next>
    requires call.req.PayReq? && call.pc.PayRecover?
  {
    var a := call.req.pay;
    if ch == Fault then Some(Answer(sh, c, call, Rejected(UniqueViolation)))
    else if ch.Found? && KeyLookup(sh.db, a.key, ch.row) then
      if ch.row.None? then Some(Answer(sh, c, call, Rejected(UniqueViolation)))
      else Some(Answer(sh, c, call, PaymentFound(sh.db.payments[ch.row.value])))
    else None
  }

  ghost function PayRollbackStep(cfg: Config, sh: Shared, c: CallId, call: Call, ch: Choice): Option<Next>
    requires call.req.PayReq? && call.pc.Aborting?
  {
    var a := call.req.pay;
    var Aborting(e, at) := call.pc;
    if ch != Go then None
    else if e == UniqueViolation && Trim(a.key) != "" then Some(EndTx(sh, c, call, PayRecover))
    else Some(EndTx(sh, c, call, Done(Rejected(e), at)))
  }

  ghost function PayStep(cfg: Config, sh: Shared, c: CallId, call: Call, ch: Choice): Option<Next>
    requires call.req.PayReq?
  {
    match call.pc
    case PayLookup => PayLookupStep(cfg, sh, c, call, ch)
    case PayOrder => PayOrderStep(cfg, sh, c, call, ch)
    case PayGateway(_, _) => PayGatewayStep(cfg, sh, c, call, ch)
    case PayBegin(_, _, _) => PayBeginStep(cfg, sh, c, call, ch)
    case PayInsert(_, _, _) => PayInsertStep(cfg, sh, c, call, ch)
    case PayMark(_, _, _) => PayMarkStep(cfg, sh, c, call, ch)
    case PayAudit(_, _, _) => PayAuditStep(cfg, sh, c, call, ch)
    case PayFinish(_, _, _, _) => PayFinishStep(cfg, sh, c, call, ch)
    case PayCommit(_, _, _, _) => PayCommitStep(cfg, sh, c, call, ch)
    case PayRecover => PayRecoverStep(cfg, sh, c, call, ch)
    case Aborting(_, _) => PayRollbackStep(cfg, sh, c, call, ch)
    case _ => None
  }

  // ---------- ProcessRefund ----------

  ghost function RefundLookupStep(cfg: Config, sh: Shared, c: CallId, call: Call, ch: Choice): Option<Next>
    requires call.req.RefundReq? && call.pc.RefundLookup?
  {
    var a := call.req.refund;
    if Trim(a.correlationId) == "" then
      if ch == Go then Some(Goto(sh, call, RefundRead)) else None
    else if ch == Fault then Some(GiveUp(sh, call))
    else if ch.Found? && CorrelationLookup(sh.db, a.correlationId, ch.row) then
      if ch.row.None? then Some(Goto(sh, call, RefundRead))
      else Some(Answer(sh, c, call, RefundFound(sh.db.refunds[ch.row.value])))
    else None
  }

  ghost function RefundReadStep(cfg: Config, sh: Shared, c: CallId, call: Call, ch: Choice): Option<Next>
    requires call.req.RefundReq? && call.pc.RefundRead?
  {
    var a := call.req.refund;
    if ch == Fault then Some(GiveUp(sh, call))
    else if ch.Fresh? && ch.id !in sh.owner then (
      match RefundPrecheck(cfg.router, sh.db, a)
      case Fail(e) => Some(Answer(sh, c, call, Rejected(e)))
      case Ok((p, g)) =>
        Some(Goto(Draw(sh, c, ch.id), call, RefundBegin(g, NewRefund(a, ch.id, sh.clock, p.currency)))))
    else None
  }

  ghost function RefundBeginStep(cfg: Config, sh: Shared, c: CallId, call: Call, ch: Choice): Option<Next>
    requires call.req.RefundReq? && call.pc.RefundBegin?
  {
    var RefundBegin(g, r) := call.pc;
    if ch == Fault then Some(GiveUp(sh, call))
    else if ch == Go then Some(Goto(sh, call, RefundLock(g, r)))
    else None
  }

  ghost function RefundLockStep(cfg: Config, sh: Shared, c: CallId, call: Call, ch: Choice): Option<Next>
    requires call.req.RefundReq? && call.pc.RefundLock?
  {
    var a := call.req.refund;
    var RefundLock(g, r) := call.pc;
    if ch == Fault then Some(FailInTx(sh, call))
    else if ch != Go || a.paymentId in sh.locks then None
    else if a.paymentId !in sh.db.payments then Some(FailInTx(sh, call))
    else
      var locked := sh.db.payments[a.paymentId];
      var sh' := sh.(locks := sh.locks[a.paymentId := c]);
      if !Refundable(locked.status) then Some(RejectInTx(sh', c, call, RefundNotAllowed))
      else Some(Goto(sh', call, RefundFold(g, r, locked)))
  }

  ghost function RefundFoldStep(cfg: Config, sh: Shared, c: CallId, call: Call, ch: Choice): Option<Next>
    requires call.req.RefundReq? && call.pc.RefundFold?
  {
    var a := call.req.refund;
    var RefundFold(g, r, locked) := call.pc;
    var remaining := locked.amount - Total(Overlay(sh.db, call.buf).refunds, a.paymentId);
    if ch == Fault then Some(FailInTx(sh, call))
    else if ch != Go then None
    else if a.amount > remaining then Some(RejectInTx(sh, c, call, RefundExceedsRemaining))
    else Some(Goto(sh, call, RefundCreate(g, r, locked, remaining)))
  }

  ghost function RefundCreateStep(cfg: Config, sh: Shared, c: CallId, call: Call, ch: Choice): Option<Next>
    requires call.req.RefundReq? && call.pc.RefundCreate?
  {
    var RefundCreate(g, r, locked, remaining) := call.pc;
    if ch == Fault then Some(FailInTx(sh, call))
    else if ch == Go then
      Some(Write(sh, call, call.buf.(refunds := call.buf.refunds[r.id := r]), RefundMark(g, r, locked, remaining)))
    else None
  }

  ghost function RefundMarkStep(cfg: Config, sh: Shared, c: CallId, call: Call, ch: Choice): Option<Next>
    requires call.req.RefundReq? && call.pc.RefundMark?
  {
    var RefundMark(g, r, locked, remaining) := call.pc;
    var locked' := locked.(status := RefundPending);
    if ch == Fault then Some(FailInTx(sh, call))
    else if ch == Go then
      Some(Write(sh, call, call.buf.(payments := call.buf.payments[locked.id := locked']),
                 RefundProcess(g, r, locked', remaining)))
    else None
  }

  ghost function RefundProcessStep(cfg: Config, sh: Shared, c: CallId, call: Call, ch: Choice): Option<Next>
    requires call.req.RefundReq? && call.pc.RefundProcess?
  {
    var RefundProcess(g, r, locked, remaining) := call.pc;
    var r' := r.(status := RefProcessing);
    if ch == Fault then Some(FailInTx(sh, call))
    else if ch == Go then
      Some(Write(sh, call, call.buf.(refunds := call.buf.refunds[r.id := r']), RefundGateway(g, r', locked, remaining)))
    else None
  }

  ghost function RefundGatewayStep(cfg: Config, sh: Shared, c: CallId, call: Call, ch: Choice): Option<Next>
    requires call.req.RefundReq? && call.pc.RefundGateway?
  {
    var a := call.req.refund;
    var RefundGateway(g, r, locked, remaining) := call.pc;
    if ch.Outcome? then
      Some(Goto(sh.(gateway := sh.gateway + [RefundCall(c, g, locked.gatewayTxn, a.amount, locked.currency, ch.res)]),
                call, RefundAudit(r, locked, remaining, ch.res, |sh.gateway|)))
    else None
  }

  ghost function RefundAuditStep(cfg: Config, sh: Shared, c: CallId, call: Call, ch: Choice): Option<Next>
    requires call.req.RefundReq? && call.pc.RefundAudit?
  {
    var a := call.req.refund;
    var RefundAudit(r, locked, remaining, res, gi) := call.pc;
    if ch == Fault then Some(FailInTx(sh, call))
    else if ch.Fresh? && ch.id !in sh.owner then
      Some(Write(Draw(sh, c, ch.id), call,
                 call.buf.(txns := call.buf.txns[ch.id := RefundRow(a, r.id, ch.id, r.currency, res)]),
                 RefundFinish(r, locked, remaining, res, gi, ch.id)))
    else None
  }

  ghost function RefundFinishStep(cfg: Config, sh: Shared, c: CallId, call: Call, ch: Choice): Option<Next>
    requires call.req.RefundReq? && call.pc.RefundFinish?
  {
    var a := call.req.refund;
    var RefundFinish(r, locked, remaining, res, gi, tid) := call.pc;
    var r' := Settled(r, res);
    var locked' := locked.(status := StatusAfter(a.amount, remaining, res));
    if ch == Fault then Some(FailInTx(sh, call))
    else if ch == Go then
      Some(Write(sh, call, call.buf.(payments := call.buf.payments[locked.id := locked']),
                 RefundStore(r', res, gi, tid)))
    else None
  }

  ghost function RefundStoreStep(cfg: Config, sh: Shared, c: CallId, call: Call, ch: Choice): Option<Next>
    requires call.req.RefundReq? && call.pc.RefundStore?
  {
    var RefundStore(r, res, gi, tid) := call.pc;
    if ch == Fault then Some(FailInTx(sh, call))
    else if ch == Go then
      Some(Write(sh, call, call.buf.(refunds := call.buf.refunds[r.id := r]), RefundCommit(r, res, gi, tid)))
    else None
  }

  ghost function RefundCommitStep(cfg: Config, sh: Shared, c: CallId, call: Call, ch: Choice): Option<Next>
    requires call.req.RefundReq? && call.pc.RefundCommit?
  {
    var RefundCommit(r, res, gi, tid) := call.pc;
    CommitStep(sh, c, call, RefundOp(r.id, tid, r.createdAt, res, gi), RefundMade(r), ch)
  }

  ghost function RefundRollbackStep(cfg: Config, sh: Shared, c: CallId, call: Call, ch: Choice): Option<Next>
    requires call.req.RefundReq? && call.pc.Aborting?
  {
    var Aborting(e, at) := call.pc;
    if ch == Go then Some(EndTx(sh, c, call, Done(Rejected(e), at))) else None
  }

  ghost function RefundStep(cfg: Config, sh: Shared, c: CallId, call: Call, ch: Choice): Option<Next>
    requires call.req.RefundReq?
  {
    match call.pc
    case RefundLookup => RefundLookupStep(cfg, sh, c, call, ch)
    case RefundRead => RefundReadStep(cfg, sh, c, call, ch)
    case RefundBegin(_, _) => RefundBeginStep(cfg, sh, c, call, ch)
    case RefundLock(_, _) => RefundLockStep(cfg, sh, c, call, ch)
    case RefundFold(_, _, _) => RefundFoldStep(cfg, sh, c, call, ch)
    case RefundCreate(_, _, _, _) => RefundCreateStep(cfg, sh, c, call, ch)
    case RefundMark(_, _, _, _) => RefundMarkStep(cfg, sh, c, call, ch)
    case RefundProcess(_, _, _, _) => RefundProcessStep(cfg, sh, c, call, ch)
    case RefundGateway(_, _, _, _) => RefundGatewayStep(cfg, sh, c, call, ch)
    case RefundAudit(_, _, _, _, _) => RefundAuditStep(cfg, sh, c, call, ch)
    case RefundFinish(_, _, _, _, _, _) => RefundFinishStep(cfg, sh, c, call, ch)
    case RefundStore(_, _, _, _) => RefundStoreStep(cfg, sh, c, call, ch)
    case RefundCommit(_, _, _, _) => RefundCommitStep(cfg, sh, c, call, ch)
    case Aborting(_, _) => RefundRollbackStep(cfg, sh, c, call, ch)
    case _ => None
  }

  // ---------- UpdatePaymentStatus ----------

  ghost function StatusReadStep(cfg: Config, sh: Shared, c: CallId, call: Call, ch: Choice): Option<Next>
    requires call.req.StatusReq? && call.pc.StatusRead?
  {
    var pid := call.req.paymentId;
    if ch == Fault then Some(GiveUp(sh, call))
    else if ch != Go then None
    else if pid !in sh.db.payments then Some(Answer(sh, c, call, Rejected(PaymentNotFound)))
    else Some(Goto(sh, call, StatusWrite(sh.db.payments[pid].(status := call.req.status))))
  }

  ghost function StatusWriteStep(cfg: Config, sh: Shared, c: CallId, call: Call, ch: Choice): Option<Next>
    requires call.req.StatusReq? && call.pc.StatusWrite?
  {
    var pid := call.req.paymentId;
    var StatusWrite(p) := call.pc;
    var sh' := Record(sh.(db := sh.db.(payments := sh.db.payments[pid := p])),
                      Event(c, call.req, StatusOp, StatusSet(p)));
    if ch == Fault then Some(GiveUp(sh, call))
    else if pid in sh.locks then None
    else if ch == Go then Some(Goto(sh', call, Done(StatusSet(p), |sh.log|)))
    else if ch == Lost then Some(Goto(sh', call, Done(Rejected(StoreFailure), 0)))
    else None
  }

  ghost function StatusStep(cfg: Config, sh: Shared, c: CallId, call: Call, ch: Choice): Option<Next>
    requires call.req.StatusReq?
  {
    match call.pc
    case StatusRead => StatusReadStep(cfg, sh, c, call, ch)
    case StatusWrite(_) => StatusWriteStep(cfg, sh, c, call, ch)
    case _ => None
  }

  /** One step of call `c`, if the environment's choice allows one. */
  ghost function Step(cfg: Config, sh: Shared, c: CallId, call: Call, ch: Choice): Option<Next> {
    if call.Finished() then None
    else if ch == Crash then Some(EndTx(sh, c, call, Gone))
    else
      match call.req
      case PayReq(_) => PayStep(cfg, sh, c, call, ch)
      case RefundReq(_) => RefundStep(cfg, sh, c, call, ch)
      case StatusReq(_, _) => StatusStep(cfg, sh, c, call, ch)
  }

  // ---------- Runs ----------

  datatype State = State(sh: Shared, calls: map<CallId, Call>)

  datatype Label =
    | Start(c: CallId, req: Request)
    | Act(c: CallId, ch: Choice)

  const INIT := State(Shared(EMPTY_DB, map[], map[], map[], 0, [], []), map[])

  /** Requests reach the services only through the validating handlers. */
  predicate Admissible(req: Request) {
    && (req.PayReq? ==> ValidPay(req.pay))
    && (req.RefundReq? ==> ValidRefund(req.refund))
  }

  predicate ActivePay(call: Call, orderId: string) {
    call.req.PayReq? && call.req.pay.orderId == orderId && !call.Finished()
  }

  /** An unfinished refund call under the stored form of correlation id `corr`. */
  predicate ActiveRefund(call: Call, corr: string) {
    call.req.RefundReq? && NullString(call.req.refund.correlationId) == NullString(corr) && !call.Finished()
  }

  /** An unfinished payment call under the stored form of idempotency key `key`. */
  predicate ActiveKey(call: Call, key: string) {
    call.req.PayReq? && NullString(call.req.pay.key) == NullString(key) && !call.Finished()
  }

  ghost predicate StatusMayStart(cfg: Config, s: State, p: Id, st: PaymentStatus) {
    && cfg.admin
    && (cfg.careful && Refundable(st) ==> Collected(s.sh.db, p))
    && (cfg.settled ==> !Refundable(st))
  }

  /** A key that is not blank is put under the callers' discipline. */
  ghost predicate PayMayStart(cfg: Config, s: State, a: PayArgs) {
    && (cfg.serialPay ==> forall d :: d in s.calls ==> !ActivePay(s.calls[d], a.orderId))
    && (NullString(a.key).Some? ==>
          && (cfg.trimmedKeys ==> Trimmed(a.key))
          && (cfg.serialKeys ==> forall d :: d in s.calls ==> !ActiveKey(s.calls[d], a.key)))
  }

  /** A correlation id that is not blank is put under the callers' discipline. */
  ghost predicate RefundMayStart(cfg: Config, s: State, corr: string) {
    NullString(corr).Some? ==>
      && (cfg.trimmedIds ==> Trimmed(corr))
      && (cfg.serialRefund ==> forall d :: d in s.calls ==> !ActiveRefund(s.calls[d], corr))
  }

  ghost predicate CanStart(cfg: Config, s: State, c: CallId, req: Request) {
    && c !in s.calls && Admissible(req)
    && (req.StatusReq? ==> StatusMayStart(cfg, s, req.paymentId, req.status))
    && (req.PayReq? ==> PayMayStart(cfg, s, req.pay))
    && (req.RefundReq? ==> RefundMayStart(cfg, s, req.refund.correlationId))
  }

  function FirstPc(req: Request): Pc {
    match req
    case PayReq(_) => PayLookup
    case RefundReq(_) => RefundLookup
    case StatusReq(_, _) => StatusRead
  }

  function NewCall(s: State, req: Request): Call {
    Call(req, FirstPc(req), EMPTY_DB, |s.sh.log|)
  }

  ghost function Move(cfg: Config, s: State, l: Label): Option<State> {
    match l
    case Start(c, req) =>
      if CanStart(cfg, s, c, req) then Some(s.(calls := s.calls[c := NewCall(s, req)])) else None
    case Act(c, ch) =>
      if c !in s.calls then None
      else
        match Step(cfg, s.sh, c, s.calls[c], ch)
        case None => None
        case Some(n) => Some(State(n.sh, s.calls[c := n.call]))
  }

  /** The state after the steps `ls`, taken one after the other from `s`. */
  ghost function Run(cfg: Config, s: State, ls: seq<Label>): Option<State>
    decreases |ls|
  {
    if ls == [] then Some(s)
    else
      match Run(cfg, s, ls[..|ls| - 1])
      case None => None
      case Some(s') => Move(cfg, s', ls[|ls| - 1])
  }
}
