/**
  What one step writes into the records of a run, events and gateway calls, each tied to the call that steps; and that
  every step brings its call nearer to its end.
*/
module Traces {
  import opened Domain
  import opened Protocol

  predicate AtCommit(pc: Pc) {
    pc.PayCommit? || pc.RefundCommit?
  }

  /** Event `e` is what call `c`, about to commit, publishes with choice `ch`. */
  predicate Publishes(c: CallId, call: Call, ch: Choice, e: Event) {
    && (ch == Go || ch == Lost) && e.cid == c && e.req == call.req
    && match call.pc
       case PayCommit(p, res, gi, tid) => e.op == ChargeOp(p.id, tid, p.createdAt, res, gi) && e.resp == Paid(p)
       case RefundCommit(r, res, gi, tid) => e.op == RefundOp(r.id, tid, r.createdAt, res, gi)
         && e.resp == RefundMade(r)
       case StatusWrite(p) => e.op == StatusOp && e.resp == StatusSet(p)
       case _ => false
  }

  /** A step records no event, or an answer read, or the write it commits. */
  ghost predicate Logs(c: CallId, call: Call, ch: Choice, sh: Shared, sh': Shared) {
    || sh'.log == sh.log
    || (exists resp :: sh'.log == sh.log + [Event(c, call.req, ReadOp, resp)])
    || (exists e :: Publishes(c, call, ch, e) && sh'.log == sh.log + [e])
  }

  /** The call has not asked its gateway yet. */
  predicate NotAsked(pc: Pc) {
    || pc.PayLookup? || pc.PayOrder? || pc.PayGateway?
    || pc.RefundLookup? || pc.RefundRead? || pc.RefundBegin? || pc.RefundLock? || pc.RefundFold?
    || pc.RefundCreate? || pc.RefundMark? || pc.RefundProcess? || pc.RefundGateway?
    || pc.StatusRead? || pc.StatusWrite?
  }

  /** The next step asks the gateway. */
  predicate AtGatewayCall(pc: Pc) {
    pc.PayGateway? || pc.RefundGateway?
  }

  /** A step calls no gateway, or asks it once and is past that for good. */
  ghost predicate Asks(c: CallId, call: Call, sh: Shared, n: Next) {
    && (NotAsked(n.call.pc) ==> NotAsked(call.pc) && n.sh.gateway == sh.gateway)
    && (|| n.sh.gateway == sh.gateway
        || (AtGatewayCall(call.pc) && exists g: GatewayCall :: g.cid == c && n.sh.gateway == sh.gateway + [g]))
  }

  ghost predicate Records(c: CallId, call: Call, ch: Choice, sh: Shared, n: Next) {
    Logs(c, call, ch, sh, n.sh) && Asks(c, call, sh, n)
  }

  /** The number of steps a call still has before it at most. */
  function Rank(pc: Pc): nat {
    match pc
    case PayLookup => 11
    case PayOrder => 10
    case PayGateway(_, _) => 9
    case PayBegin(_, _, _) => 8
    case PayInsert(_, _, _) => 7
    case PayMark(_, _, _) => 6
    case PayAudit(_, _, _) => 5
    case PayFinish(_, _, _, _) => 4
    case PayCommit(_, _, _, _) => 3
    case PayRecover => 1
    case RefundLookup => 15
    case RefundRead => 14
    case RefundBegin(_, _) => 13
    case RefundLock(_, _) => 12
    case RefundFold(_, _, _) => 11
    case RefundCreate(_, _, _, _) => 10
    case RefundMark(_, _, _, _) => 9
    case RefundProcess(_, _, _, _) => 8
    case RefundGateway(_, _, _, _) => 7
    case RefundAudit(_, _, _, _, _) => 6
    case RefundFinish(_, _, _, _, _, _) => 5
    case RefundStore(_, _, _, _) => 4
    case RefundCommit(_, _, _, _) => 3
    case StatusRead => 2
    case StatusWrite(_) => 1
    case Aborting(_, _) => 2
    case Done(_, _) => 0
    case Gone => 0
  }

  /** A step that brings its call nearer to its end. */
  ghost predicate Moves(c: CallId, call: Call, ch: Choice, sh: Shared, n: Next) {
    Records(c, call, ch, sh, n) && Rank(n.call.pc) < Rank(call.pc)
  }

  /** A step that does so and leaves the tables alone: every step of a payment or a refund except its commit. */
  ghost predicate Quietly(c: CallId, call: Call, ch: Choice, sh: Shared, n: Next) {
    Moves(c, call, ch, sh, n) && n.sh.db == sh.db
  }

  lemma PayLookupMoves(cfg: Config, sh: Shared, c: CallId, call: Call, ch: Choice)
    requires call.req.PayReq? && call.pc.PayLookup? && PayLookupStep(cfg, sh, c, call, ch).Some?
    ensures Quietly(c, call, ch, sh, PayLookupStep(cfg, sh, c, call, ch).value)
  {
  }

  lemma PayOrderMoves(cfg: Config, sh: Shared, c: CallId, call: Call, ch: Choice)
    requires call.req.PayReq? && call.pc.PayOrder? && PayOrderStep(cfg, sh, c, call, ch).Some?
    ensures Quietly(c, call, ch, sh, PayOrderStep(cfg, sh, c, call, ch).value)
  {
  }

  lemma PayGatewayMoves(cfg: Config, sh: Shared, c: CallId, call: Call, ch: Choice)
    requires call.req.PayReq? && call.pc.PayGateway? && PayGatewayStep(cfg, sh, c, call, ch).Some?
    ensures Quietly(c, call, ch, sh, PayGatewayStep(cfg, sh, c, call, ch).value)
  {
  }

  lemma PayBeginMoves(cfg: Config, sh: Shared, c: CallId, call: Call, ch: Choice)
    requires call.req.PayReq? && call.pc.PayBegin? && PayBeginStep(cfg, sh, c, call, ch).Some?
    ensures Quietly(c, call, ch, sh, PayBeginStep(cfg, sh, c, call, ch).value)
  {
  }

  lemma PayInsertMoves(cfg: Config, sh: Shared, c: CallId, call: Call, ch: Choice)
    requires call.req.PayReq? && call.pc.PayInsert? && PayInsertStep(cfg, sh, c, call, ch).Some?
    ensures Quietly(c, call, ch, sh, PayInsertStep(cfg, sh, c, call, ch).value)
  {
  }

  lemma PayMarkMoves(cfg: Config, sh: Shared, c: CallId, call: Call, ch: Choice)
    requires call.req.PayReq? && call.pc.PayMark? && PayMarkStep(cfg, sh, c, call, ch).Some?
    ensures Quietly(c, call, ch, sh, PayMarkStep(cfg, sh, c, call, ch).value)
  {
  }

  lemma PayAuditMoves(cfg: Config, sh: Shared, c: CallId, call: Call, ch: Choice)
    requires call.req.PayReq? && call.pc.PayAudit? && PayAuditStep(cfg, sh, c, call, ch).Some?
    ensures Quietly(c, call, ch, sh, PayAuditStep(cfg, sh, c, call, ch).value)
  {
    var PayAudit(p, res, gi) := call.pc;
    if ch.Fresh? {
      assert PayAuditStep(cfg, sh, c, call, ch).value.call.pc == PayFinish(p, res, gi, ch.id);
    }
  }

  lemma PayFinishMoves(cfg: Config, sh: Shared, c: CallId, call: Call, ch: Choice)
    requires call.req.PayReq? && call.pc.PayFinish? && PayFinishStep(cfg, sh, c, call, ch).Some?
    ensures Quietly(c, call, ch, sh, PayFinishStep(cfg, sh, c, call, ch).value)
  {
  }

  lemma PayRecoverMoves(cfg: Config, sh: Shared, c: CallId, call: Call, ch: Choice)
    requires call.req.PayReq? && call.pc.PayRecover? && PayRecoverStep(cfg, sh, c, call, ch).Some?
    ensures Quietly(c, call, ch, sh, PayRecoverStep(cfg, sh, c, call, ch).value)
  {
  }

  lemma PayRollbackMoves(cfg: Config, sh: Shared, c: CallId, call: Call, ch: Choice)
    requires call.req.PayReq? && call.pc.Aborting? && PayRollbackStep(cfg, sh, c, call, ch).Some?
    ensures Quietly(c, call, ch, sh, PayRollbackStep(cfg, sh, c, call, ch).value)
  {
  }

  lemma RefundLookupMoves(cfg: Config, sh: Shared, c: CallId, call: Call, ch: Choice)
    requires call.req.RefundReq? && call.pc.RefundLookup? && RefundLookupStep(cfg, sh, c, call, ch).Some?
    ensures Quietly(c, call, ch, sh, RefundLookupStep(cfg, sh, c, call, ch).value)
  {
  }

  lemma RefundReadMoves(cfg: Config, sh: Shared, c: CallId, call: Call, ch: Choice)
    requires call.req.RefundReq? && call.pc.RefundRead? && RefundReadStep(cfg, sh, c, call, ch).Some?
    ensures Quietly(c, call, ch, sh, RefundReadStep(cfg, sh, c, call, ch).value)
  {
  }

  lemma RefundBeginMoves(cfg: Config, sh: Shared, c: CallId, call: Call, ch: Choice)
    requires call.req.RefundReq? && call.pc.RefundBegin? && RefundBeginStep(cfg, sh, c, call, ch).Some?
    ensures Quietly(c, call, ch, sh, RefundBeginStep(cfg, sh, c, call, ch).value)
  {
  }

  lemma RefundLockMoves(cfg: Config, sh: Shared, c: CallId, call: Call, ch: Choice)
    requires call.req.RefundReq? && call.pc.RefundLock? && RefundLockStep(cfg, sh, c, call, ch).Some?
    ensures Quietly(c, call, ch, sh, RefundLockStep(cfg, sh, c, call, ch).value)
  {
  }

  lemma RefundFoldMoves(cfg: Config, sh: Shared, c: CallId, call: Call, ch: Choice)
    requires call.req.RefundReq? && call.pc.RefundFold? && RefundFoldStep(cfg, sh, c, call, ch).Some?
    ensures Quietly(c, call, ch, sh, RefundFoldStep(cfg, sh, c, call, ch).value)
  {
  }

  lemma RefundCreateMoves(cfg: Config, sh: Shared, c: CallId, call: Call, ch: Choice)
    requires call.req.RefundReq? && call.pc.RefundCreate? && RefundCreateStep(cfg, sh, c, call, ch).Some?
    ensures Quietly(c, call, ch, sh, RefundCreateStep(cfg, sh, c, call, ch).value)
  {
  }

  lemma RefundMarkMoves(cfg: Config, sh: Shared, c: CallId, call: Call, ch: Choice)
    requires call.req.RefundReq? && call.pc.RefundMark? && RefundMarkStep(cfg, sh, c, call, ch).Some?
    ensures Quietly(c, call, ch, sh, RefundMarkStep(cfg, sh, c, call, ch).value)
  {
  }

  lemma RefundProcessMoves(cfg: Config, sh: Shared, c: CallId, call: Call, ch: Choice)
    requires call.req.RefundReq? && call.pc.RefundProcess? && RefundProcessStep(cfg, sh, c, call, ch).Some?
    ensures Quietly(c, call, ch, sh, RefundProcessStep(cfg, sh, c, call, ch).value)
  {
  }

  lemma RefundGatewayMoves(cfg: Config, sh: Shared, c: CallId, call: Call, ch: Choice)
    requires call.req.RefundReq? && call.pc.RefundGateway? && RefundGatewayStep(cfg, sh, c, call, ch).Some?
    ensures Quietly(c, call, ch, sh, RefundGatewayStep(cfg, sh, c, call, ch).value)
  {
  }

  lemma RefundAuditMoves(cfg: Config, sh: Shared, c: CallId, call: Call, ch: Choice)
    requires call.req.RefundReq? && call.pc.RefundAudit? && RefundAuditStep(cfg, sh, c, call, ch).Some?
    ensures Quietly(c, call, ch, sh, RefundAuditStep(cfg, sh, c, call, ch).value)
  {
    var RefundAudit(r, locked, remaining, res, gi) := call.pc;
    if ch.Fresh? {
      assert RefundAuditStep(cfg, sh, c, call, ch).value.call.pc == RefundFinish(r, locked, remaining, res, gi, ch.id);
    }
  }

  lemma RefundFinishMoves(cfg: Config, sh: Shared, c: CallId, call: Call, ch: Choice)
    requires call.req.RefundReq? && call.pc.RefundFinish? && RefundFinishStep(cfg, sh, c, call, ch).Some?
    ensures Quietly(c, call, ch, sh, RefundFinishStep(cfg, sh, c, call, ch).value)
  {
  }

  lemma RefundStoreMoves(cfg: Config, sh: Shared, c: CallId, call: Call, ch: Choice)
    requires call.req.RefundReq? && call.pc.RefundStore? && RefundStoreStep(cfg, sh, c, call, ch).Some?
    ensures Quietly(c, call, ch, sh, RefundStoreStep(cfg, sh, c, call, ch).value)
  {
  }

  lemma RefundRollbackMoves(cfg: Config, sh: Shared, c: CallId, call: Call, ch: Choice)
    requires call.req.RefundReq? && call.pc.Aborting? && RefundRollbackStep(cfg, sh, c, call, ch).Some?
    ensures Quietly(c, call, ch, sh, RefundRollbackStep(cfg, sh, c, call, ch).value)
  {
  }

  lemma PayQuiet(cfg: Config, sh: Shared, c: CallId, call: Call, ch: Choice)
    requires call.req.PayReq? && !call.pc.PayCommit? && PayStep(cfg, sh, c, call, ch).Some?
    ensures Quietly(c, call, ch, sh, PayStep(cfg, sh, c, call, ch).value)
  {
    match call.pc
    case PayLookup => PayLookupMoves(cfg, sh, c, call, ch);
    case PayOrder => PayOrderMoves(cfg, sh, c, call, ch);
    case PayGateway(_, _) => PayGatewayMoves(cfg, sh, c, call, ch);
    case PayBegin(_, _, _) => PayBeginMoves(cfg, sh, c, call, ch);
    case PayInsert(_, _, _) => PayInsertMoves(cfg, sh, c, call, ch);
    case PayMark(_, _, _) => PayMarkMoves(cfg, sh, c, call, ch);
    case PayAudit(_, _, _) => PayAuditMoves(cfg, sh, c, call, ch);
    case PayFinish(_, _, _, _) => PayFinishMoves(cfg, sh, c, call, ch);
    case PayRecover => PayRecoverMoves(cfg, sh, c, call, ch);
    case Aborting(_, _) => PayRollbackMoves(cfg, sh, c, call, ch);
    case _ =>
  }

  lemma RefundQuiet(cfg: Config, sh: Shared, c: CallId, call: Call, ch: Choice)
    requires call.req.RefundReq? && !call.pc.RefundCommit? && RefundStep(cfg, sh, c, call, ch).Some?
    ensures Quietly(c, call, ch, sh, RefundStep(cfg, sh, c, call, ch).value)
  {
    match call.pc
    case RefundLookup => RefundLookupMoves(cfg, sh, c, call, ch);
    case RefundRead => RefundReadMoves(cfg, sh, c, call, ch);
    case RefundBegin(_, _) => RefundBeginMoves(cfg, sh, c, call, ch);
    case RefundLock(_, _) => RefundLockMoves(cfg, sh, c, call, ch);
    case RefundFold(_, _, _) => RefundFoldMoves(cfg, sh, c, call, ch);
    case RefundCreate(_, _, _, _) => RefundCreateMoves(cfg, sh, c, call, ch);
    case RefundMark(_, _, _, _) => RefundMarkMoves(cfg, sh, c, call, ch);
    case RefundProcess(_, _, _, _) => RefundProcessMoves(cfg, sh, c, call, ch);
    case RefundGateway(_, _, _, _) => RefundGatewayMoves(cfg, sh, c, call, ch);
    case RefundAudit(_, _, _, _, _) => RefundAuditMoves(cfg, sh, c, call, ch);
    case RefundFinish(_, _, _, _, _, _) => RefundFinishMoves(cfg, sh, c, call, ch);
    case RefundStore(_, _, _, _) => RefundStoreMoves(cfg, sh, c, call, ch);
    case Aborting(_, _) => RefundRollbackMoves(cfg, sh, c, call, ch);
    case _ =>
  }

  lemma CommitMoves(sh: Shared, c: CallId, call: Call, op: Op, resp: Response, ch: Choice)
    requires AtCommit(call.pc) && CommitStep(sh, c, call, op, resp, ch).Some?
    requires (ch == Go || ch == Lost) ==> Publishes(c, call, ch, Event(c, call.req, op, resp))
    ensures Moves(c, call, ch, sh, CommitStep(sh, c, call, op, resp, ch).value)
  {
  }

  lemma PayMoves(cfg: Config, sh: Shared, c: CallId, call: Call, ch: Choice)
    requires call.req.PayReq? && PayStep(cfg, sh, c, call, ch).Some?
    ensures Moves(c, call, ch, sh, PayStep(cfg, sh, c, call, ch).value)
  {
    if call.pc.PayCommit? {
      var PayCommit(p, res, gi, tid) := call.pc;
      CommitMoves(sh, c, call, ChargeOp(p.id, tid, p.createdAt, res, gi), Paid(p), ch);
    } else {
      PayQuiet(cfg, sh, c, call, ch);
    }
  }

  lemma RefundMoves(cfg: Config, sh: Shared, c: CallId, call: Call, ch: Choice)
    requires call.req.RefundReq? && RefundStep(cfg, sh, c, call, ch).Some?
    ensures Moves(c, call, ch, sh, RefundStep(cfg, sh, c, call, ch).value)
  {
    if call.pc.RefundCommit? {
      var RefundCommit(r, res, gi, tid) := call.pc;
      CommitMoves(sh, c, call, RefundOp(r.id, tid, r.createdAt, res, gi), RefundMade(r), ch);
    } else {
      RefundQuiet(cfg, sh, c, call, ch);
    }
  }

  lemma StatusRecords(cfg: Config, sh: Shared, c: CallId, call: Call, ch: Choice)
    requires call.req.StatusReq? && StatusStep(cfg, sh, c, call, ch).Some?
    ensures Records(c, call, ch, sh, StatusStep(cfg, sh, c, call, ch).value)
  {
    if call.pc.StatusWrite? && ch != Fault {
      assert Publishes(c, call, ch, Event(c, call.req, StatusOp, StatusSet(call.pc.p)));
    }
  }

  lemma StepRecords(cfg: Config, sh: Shared, c: CallId, call: Call, ch: Choice)
    requires Step(cfg, sh, c, call, ch).Some?
    ensures Records(c, call, ch, sh, Step(cfg, sh, c, call, ch).value)
  {
    if ch != Crash {
      match call.req
      case PayReq(_) => PayMoves(cfg, sh, c, call, ch);
      case RefundReq(_) => RefundMoves(cfg, sh, c, call, ch);
      case StatusReq(_, _) => StatusRecords(cfg, sh, c, call, ch);
    }
  }

  lemma StepKeepsRequest(cfg: Config, sh: Shared, c: CallId, call: Call, ch: Choice)
    requires Step(cfg, sh, c, call, ch).Some?
    ensures Step(cfg, sh, c, call, ch).value.call.req == call.req
  {
  }
}
