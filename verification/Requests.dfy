/** From a request to the gateway it reaches, the rows it leaves and the reason it is refused for, in every run. */
module Requests {
  import opened Base
  import opened Text
  import opened Routing
  import opened Domain
  import opened Ledger
  import opened Protocol
  import opened Refinement
  import opened Runs
  import opened Theorems
  import opened Traces
  import opened Effects
  import opened Records

  // ---------- Which gateway is asked, and for what ----------

  /** The charge went where payment `a` asked, for its amount in its currency. */
  ghost predicate ChargeAsked(router: Router, g: GatewayCall, a: PayArgs) {
    && g.ChargeCall? && Leads(router, AskedKey(router.defaultName, a.gateway), Ok(g.gateway))
    && g.amount == a.amount && g.currency == Upper(Trim(a.currency))
  }

  /** The refund went where the payment was charged, against its charge, for the amount asked in its currency. */
  ghost predicate RefundAsked(router: Router, db: Db, g: GatewayCall, a: RefundArgs) {
    && g.RefundCall? && a.paymentId in db.payments
    && var row := db.payments[a.paymentId];
    && Leads(router, Lower(row.gateway), Ok(g.gateway)) && g.chargeRef == row.gatewayTxn
    && g.amount == a.amount && g.currency == row.currency
  }

  ghost predicate RightlyAsked(cfg: Config, db: Db, g: GatewayCall, req: Request) {
    match req
    case PayReq(a) => ChargeAsked(cfg.router, g, a)
    case RefundReq(a) => RefundAsked(cfg.router, db, g, a)
    case StatusReq(_, _) => false
  }

  ghost predicate AllRightlyAsked(cfg: Config, s: State) {
    forall k :: 0 <= k < |s.sh.gateway| ==>
      s.sh.gateway[k].cid in s.calls && RightlyAsked(cfg, s.sh.db, s.sh.gateway[k], s.calls[s.sh.gateway[k].cid].req)
  }

  /** A step that asks a gateway asks the right one. */
  ghost predicate AsksRightly(cfg: Config, sh: Shared, call: Call, n: Next) {
    || n.sh.gateway == sh.gateway
    || (|n.sh.gateway| == |sh.gateway| + 1 && n.sh.db == sh.db
        && RightlyAsked(cfg, sh.db, n.sh.gateway[|sh.gateway|], call.req))
  }

  lemma PaysRightly(cfg: Config, sh: Shared, c: CallId, call: Call, ch: Choice)
    requires call.req.PayReq? && call.pc.PayGateway? && PayOutsideTx(cfg, sh, c, call)
    requires PayGatewayStep(cfg, sh, c, call, ch).Some?
    ensures AsksRightly(cfg, sh, call, PayGatewayStep(cfg, sh, c, call, ch).value)
  {
    ChoosesAsked(cfg.router, call.req.pay.gateway);
  }

  lemma RefundsRightly(cfg: Config, sh: Shared, c: CallId, call: Call, ch: Choice)
    requires call.req.RefundReq? && call.pc.RefundGateway? && RefundInTx(cfg, sh, c, call)
    requires RefundGatewayStep(cfg, sh, c, call, ch).Some?
    ensures AsksRightly(cfg, sh, call, RefundGatewayStep(cfg, sh, c, call, ch).value)
  {
    FindsByName(cfg.router, sh.db.payments[call.req.refund.paymentId].gateway);
  }

  lemma StepAsksRightly(cfg: Config, sh: Shared, c: CallId, call: Call, ch: Choice)
    requires CallInv(cfg, sh, c, call) && Step(cfg, sh, c, call, ch).Some?
    ensures AsksRightly(cfg, sh, call, Step(cfg, sh, c, call, ch).value)
  {
    StepRecords(cfg, sh, c, call, ch);
    assert Asks(c, call, sh, Step(cfg, sh, c, call, ch).value);
    if ch != Crash && AtGatewayCall(call.pc) {
      match call.req
      case PayReq(_) => PaysRightly(cfg, sh, c, call, ch);
      case RefundReq(_) => RefundsRightly(cfg, sh, c, call, ch);
      case StatusReq(_, _) =>
    }
  }

  /** Rows keep what a gateway call refers to. */
  lemma StaysRight(cfg: Config, sh: Shared, sh': Shared, c: CallId, g: GatewayCall, req: Request)
    requires RowsKept(sh, sh', c) && RightlyAsked(cfg, sh.db, g, req)
    ensures RightlyAsked(cfg, sh'.db, g, req)
  {
  }

  lemma AskedRightlyAct(cfg: Config, s: State, c: CallId, ch: Choice)
    requires StateInv(cfg, s) && AllRightlyAsked(cfg, s)
    requires c in s.calls && Step(cfg, s.sh, c, s.calls[c], ch).Some?
    ensures var n := Step(cfg, s.sh, c, s.calls[c], ch).value;
      AllRightlyAsked(cfg, State(n.sh, s.calls[c := n.call]))
  {
    var n := Step(cfg, s.sh, c, s.calls[c], ch).value;
    ActKeeps(cfg, s, c, ch);
    StepAsksRightly(cfg, s.sh, c, s.calls[c], ch);
    StepKeepsRequest(cfg, s.sh, c, s.calls[c], ch);
    RightlyPut(cfg, s, c, n);
  }

  lemma RightlyPut(cfg: Config, s: State, c: CallId, n: Next)
    requires AllRightlyAsked(cfg, s) && c in s.calls && n.call.req == s.calls[c].req
    requires Guarantee(s.sh, n.sh, c) && AsksRightly(cfg, s.sh, s.calls[c], n)
    ensures AllRightlyAsked(cfg, State(n.sh, s.calls[c := n.call]))
  {
    var s' := State(n.sh, s.calls[c := n.call]);
    forall k | 0 <= k < |n.sh.gateway|
      ensures n.sh.gateway[k].cid in s'.calls
      ensures RightlyAsked(cfg, n.sh.db, n.sh.gateway[k], s'.calls[n.sh.gateway[k].cid].req)
    {
      if k < |s.sh.gateway| {
        assert n.sh.gateway[k] == s.sh.gateway[k];
        StaysRight(cfg, s.sh, n.sh, c, s.sh.gateway[k], s.calls[s.sh.gateway[k].cid].req);
      }
    }
  }

  /**
    In every reachable state every gateway call, also one that left no row, went to the right gateway: a charge to the
    one its request names, or to the default if it names none, for the amount and in the currency of the request; a
    refund to the one its payment was charged at, against that charge, for the amount of its request.
  */
  lemma {:induction false} AskedRightly(cfg: Config, ls: seq<Label>, s: State)
    requires Reaches(cfg, ls, s)
    ensures AllRightlyAsked(cfg, s)
    decreases |ls|
  {
    if ls == [] {
      assert s == INIT;
    } else {
      var m := |ls| - 1;
      var before := Run(cfg, INIT, ls[..m]).value;
      AskedRightly(cfg, ls[..m], before);
      RunKeeps(cfg, ls[..m], before);
      if ls[m].Act? {
        AskedRightlyAct(cfg, before, ls[m].c, ls[m].ch);
      }
    }
  }

  /** By name: a charge went to the gateway whose name was asked for, whatever the case, or is the default's. */
  lemma ChargedAsNamed(cfg: Config, ls: seq<Label>, s: State, k: nat)
    requires ValidRouter(cfg.router) && Reaches(cfg, ls, s) && k < |s.sh.gateway| && s.sh.gateway[k].ChargeCall?
    ensures s.sh.gateway[k].cid in s.calls && s.calls[s.sh.gateway[k].cid].req.PayReq?
    ensures var a, g := s.calls[s.sh.gateway[k].cid].req.pay, s.sh.gateway[k];
      && g.gateway.enabled && g.amount == a.amount && g.currency == Upper(Trim(a.currency))
      && Lower(g.gateway.name) == Lower(if Blank(a.gateway) then cfg.router.defaultName else a.gateway)
  {
    AskedRightly(cfg, ls, s);
  }

  // ---------- What is stored ----------

  /** The rows of a charge in any later tables: as the request and the gateway's answer have it, the status aside. */
  ghost predicate ChargeStored(db: Db, e: Event, g: Gateway) {
    && e.op.ChargeOp? && e.req.PayReq?
    && e.op.pid in db.payments && PaymentRecords(db.payments[e.op.pid], e.req.pay, e.op.pid, e.op.now, g, e.op.res)
    && e.op.tid in db.txns && ChargeRecords(db.txns[e.op.tid], e.req.pay, e.op.pid, e.op.res)
  }

  lemma ChargeEventStores(cfg: Config, db: Db, e: Event) returns (g: Gateway)
    requires e.op.ChargeOp? && ApplyEvent(cfg, db, e).Some?
    ensures ChargeStored(ApplyEvent(cfg, db, e).value, e, g)
    ensures Leads(cfg.router, AskedKey(cfg.router.defaultName, e.req.pay.gateway), Ok(g))
  {
    var db' := ApplyEvent(cfg, db, e).value;
    g := ChargeWrites(cfg.router, db, e.req.pay, e.op.pid, e.op.tid, e.op.now, e.op.res, db', e.resp.payment);
  }

  lemma ChargeStaysStored(cfg: Config, db: Db, db': Db, e: Event, g: Gateway)
    requires ChargeStored(db, e, g) && Extends(cfg, db, db')
    ensures ChargeStored(db', e, g)
  {
  }

  /**
    In every reachable state the rows of a committed charge carry its request field by field, the gateway it asked for
    and what that answered; only the status may have changed.
  */
  lemma ChargesAreStored(cfg: Config, ls: seq<Label>, s: State, i: nat) returns (g: Gateway)
    requires Reaches(cfg, ls, s) && i < |s.sh.log| && s.sh.log[i].op.ChargeOp?
    ensures ChargeStored(s.sh.db, s.sh.log[i], g)
    ensures Leads(cfg.router, AskedKey(cfg.router.defaultName, s.sh.log[i].req.pay.gateway), Ok(g))
    ensures s.sh.log[i].cid in s.calls && s.calls[s.sh.log[i].cid].req == s.sh.log[i].req
  {
    RunKeeps(cfg, ls, s);
    RequestsRun(cfg, ls, s);
    ReplayAt(cfg, s.sh.log, i);
    LaterExtends(cfg, s.sh.log, i + 1);
    g := ChargeEventStores(cfg, Replay(cfg, s.sh.log[..i]).value, s.sh.log[i]);
    ChargeStaysStored(cfg, Replay(cfg, s.sh.log[..i + 1]).value, s.sh.db, s.sh.log[i], g);
  }

  /** The rows of a refund in any later tables. */
  ghost predicate RefundStored(db: Db, e: Event) {
    && e.op.RefundOp? && e.req.RefundReq? && e.req.refund.paymentId in db.payments
    && var a, currency := e.req.refund, db.payments[e.req.refund.paymentId].currency;
    && e.op.rid in db.refunds && RefundRecords(db.refunds[e.op.rid], a, e.op.rid, e.op.now, currency, e.op.res)
    && e.op.tid in db.txns && RefundAuditRecords(db.txns[e.op.tid], a, e.op.rid, currency, e.op.res)
  }

  lemma RefundEventStores(cfg: Config, db: Db, e: Event)
    requires e.op.RefundOp? && ApplyEvent(cfg, db, e).Some?
    ensures RefundStored(ApplyEvent(cfg, db, e).value, e)
  {
    var db' := ApplyEvent(cfg, db, e).value;
    RefundWrites(cfg.router, db, e.req.refund, e.op.rid, e.op.tid, e.op.now, e.op.res, db', e.resp.refund);
  }

  lemma RefundStaysStored(cfg: Config, db: Db, db': Db, e: Event)
    requires RefundStored(db, e) && Extends(cfg, db, db')
    ensures RefundStored(db', e)
  {
  }

  /** The rows of a committed refund carry its request field by field, and what the gateway answered. */
  lemma RefundsAreStored(cfg: Config, ls: seq<Label>, s: State, i: nat)
    requires Reaches(cfg, ls, s) && i < |s.sh.log| && s.sh.log[i].op.RefundOp?
    ensures RefundStored(s.sh.db, s.sh.log[i])
    ensures s.sh.log[i].cid in s.calls && s.calls[s.sh.log[i].cid].req == s.sh.log[i].req
  {
    RunKeeps(cfg, ls, s);
    RequestsRun(cfg, ls, s);
    ReplayAt(cfg, s.sh.log, i);
    LaterExtends(cfg, s.sh.log, i + 1);
    RefundEventStores(cfg, Replay(cfg, s.sh.log[..i]).value, s.sh.log[i]);
    RefundStaysStored(cfg, Replay(cfg, s.sh.log[..i + 1]).value, s.sh.db, s.sh.log[i]);
  }

  /** A status update gives its payment the status it asked for, and changes nothing else. */
  lemma StatusesAreSet(cfg: Config, ls: seq<Label>, s: State, i: nat)
    requires Reaches(cfg, ls, s) && i < |s.sh.log| && s.sh.log[i].op.StatusOp?
    ensures s.sh.log[i].cid in s.calls && s.calls[s.sh.log[i].cid].req == s.sh.log[i].req && s.sh.log[i].req.StatusReq?
    ensures Replay(cfg, s.sh.log[..i]).Some? && Replay(cfg, s.sh.log[..i + 1]).Some?
    ensures var before, after, p := Replay(cfg, s.sh.log[..i]).value, Replay(cfg, s.sh.log[..i + 1]).value,
                                    s.sh.log[i].req.paymentId;
      && p in before.payments && after.refunds == before.refunds && after.txns == before.txns
      && after.payments == before.payments[p := before.payments[p].(status := s.sh.log[i].req.status)]
      && s.sh.log[i].resp == StatusSet(after.payments[p])
  {
    RunKeeps(cfg, ls, s);
    RequestsRun(cfg, ls, s);
    ReplayAt(cfg, s.sh.log, i);
  }

  // ---------- Why a request is refused ----------

  /** The reason for a refusal, on the tables it is given for. */
  ghost predicate HasReason(cfg: Config, db: Db, req: Request, e: Error) {
    match req
    case PayReq(a) => PaymentRefusedBecause(cfg.router, db, a, e)
    case RefundReq(a) => RefusedBecause(cfg.router, db, a, e)
    case StatusReq(p, _) => e == PaymentNotFound && p !in db.payments
  }

  lemma RefusalHasReason(cfg: Config, db: Db, e: Event)
    requires ApplyEvent(cfg, db, e).Some? && e.resp.Rejected?
    ensures HasReason(cfg, db, e.req, e.resp.error)
  {
    match e.req
    case PayReq(a) => PaymentRefusalHasReason(cfg, db, a, e.resp.error);
    case RefundReq(a) => RefusedIffBecause(cfg.router, db, a, e.resp.error);
    case StatusReq(_, _) =>
  }

  /**
    Every refusal a call answers, other than a failure of the store, has its reason in the committed tables of one
    moment after the call began.
  */
  lemma RefusalsHaveReasons(cfg: Config, ls: seq<Label>, s: State, c: CallId) returns (i: nat)
    requires Reaches(cfg, ls, s) && c in s.calls && s.calls[c].pc.Done? && s.calls[c].pc.resp.Rejected?
    requires s.calls[c].pc.resp.error != StoreFailure
    ensures s.calls[c].start <= i < |s.sh.log| && Replay(cfg, s.sh.log[..i]).Some?
    ensures HasReason(cfg, Replay(cfg, s.sh.log[..i]).value, s.calls[c].req, s.calls[c].pc.resp.error)
  {
    Serializable(cfg, ls, s);
    i := s.calls[c].pc.at;
    ReplayAt(cfg, s.sh.log, i);
    RefusalHasReason(cfg, Replay(cfg, s.sh.log[..i]).value, s.sh.log[i]);
  }

  // ---------- What is found ----------

  /** Row `p` is the newest holder of the key asked with, or the newest payment of the order, and that is COMPLETED. */
  ghost predicate FoundPayment(db: Db, a: PayArgs, p: Payment) {
    && p.id in db.payments && db.payments[p.id] == p
    && (|| (!Blank(a.key) && p.key == Some(a.key)
            && forall q :: q in db.payments && db.payments[q].key == Some(a.key) ==>
              db.payments[q].createdAt <= p.createdAt)
        || (p.status == Completed && p.orderId == a.orderId
            && forall q :: q in db.payments && db.payments[q].orderId == a.orderId ==>
              db.payments[q].createdAt <= p.createdAt))
  }

  /** Row `r` is the newest refund with the correlation id asked with. */
  ghost predicate FoundRefund(db: Db, a: RefundArgs, r: Refund) {
    && r.id in db.refunds && db.refunds[r.id] == r && !Blank(a.correlationId)
    && r.correlationId == Some(a.correlationId)
    && forall q :: q in db.refunds && db.refunds[q].correlationId == Some(a.correlationId) ==>
      db.refunds[q].createdAt <= r.createdAt
  }

  lemma FoundIsThere(cfg: Config, db: Db, e: Event)
    requires ApplyEvent(cfg, db, e).Some?
    ensures e.resp.PaymentFound? ==> e.req.PayReq? && FoundPayment(db, e.req.pay, e.resp.found)
    ensures e.resp.RefundFound? ==> e.req.RefundReq? && FoundRefund(db, e.req.refund, e.resp.foundRefund)
  {
    if e.req.PayReq? {
      BlankIffTrimmedAway(e.req.pay.key);
    } else if e.req.RefundReq? {
      BlankIffTrimmedAway(e.req.refund.correlationId);
    }
  }

  /** Every row a call answers as found was, at one moment after the call began, the one its lookup is for. */
  lemma FoundAnswersAreThere(cfg: Config, ls: seq<Label>, s: State, c: CallId) returns (i: nat)
    requires Reaches(cfg, ls, s) && c in s.calls && s.calls[c].pc.Done?
    requires s.calls[c].pc.resp.PaymentFound? || s.calls[c].pc.resp.RefundFound?
    ensures s.calls[c].start <= i < |s.sh.log| && Replay(cfg, s.sh.log[..i]).Some?
    ensures var db, req, resp := Replay(cfg, s.sh.log[..i]).value, s.calls[c].req, s.calls[c].pc.resp;
      if resp.PaymentFound? then req.PayReq? && FoundPayment(db, req.pay, resp.found)
      else req.RefundReq? && FoundRefund(db, req.refund, resp.foundRefund)
  {
    Serializable(cfg, ls, s);
    i := s.calls[c].pc.at;
    ReplayAt(cfg, s.sh.log, i);
    FoundIsThere(cfg, Replay(cfg, s.sh.log[..i]).value, s.sh.log[i]);
  }
}
