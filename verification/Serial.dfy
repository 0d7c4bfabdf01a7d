/** What holds when payment calls of one order do not overlap: at most one of its payments is live. */
module Serial {
  import opened Base
  import opened Text
  import opened Domain
  import opened Lookups
  import opened Ledger
  import opened Protocol
  import opened Refinement
  import opened Steps
  import opened Runs
  import opened Traces

  // ---------- What a step does to the tables ----------

  /** A committed charge adds the row its call was holding. */
  ghost predicate AddsPayment(sh: Shared, call: Call, sh': Shared) {
    && call.pc.PayCommit? && call.pc.p.id !in sh.db.payments
    && sh'.db.payments == sh.db.payments[call.pc.p.id := call.pc.p] && sh'.db.refunds == sh.db.refunds
  }

  /** A committed refund adds its row, and moves the status of one refundable payment. */
  ghost predicate AddsRefund(sh: Shared, call: Call, sh': Shared) {
    && call.req.RefundReq? && call.pc.RefundCommit? && call.req.refund.paymentId in sh.db.payments
    && var p := call.req.refund.paymentId;
    && p in sh'.db.payments && Refundable(sh.db.payments[p].status)
    && sh'.db.payments == sh.db.payments[p := sh.db.payments[p].(status := sh'.db.payments[p].status)]
    && sh'.db.refunds == sh.db.refunds[call.pc.r.id := call.pc.r]
    && call.pc.r.correlationId == NullString(call.req.refund.correlationId)
  }

  ghost predicate SameRows(sh: Shared, sh': Shared) {
    sh'.db.payments == sh.db.payments && sh'.db.refunds == sh.db.refunds
  }

  /** A status update from outside writes a status that is not refundable. */
  ghost predicate SetsStatus(sh: Shared, call: Call, sh': Shared) {
    && call.req.StatusReq? && call.req.paymentId in sh.db.payments && !Refundable(call.req.status)
    && var p := call.req.paymentId;
    && sh'.db.payments == sh.db.payments[p := sh.db.payments[p].(status := call.req.status)]
    && sh'.db.refunds == sh.db.refunds
  }

  ghost predicate Changes(sh: Shared, call: Call, sh': Shared) {
    SameRows(sh, sh') || AddsPayment(sh, call, sh') || AddsRefund(sh, call, sh') || SetsStatus(sh, call, sh')
  }

  /** A status call writes no refundable status. */
  predicate CallSettles(call: Call) {
    call.req.StatusReq? ==> !Refundable(call.req.status)
  }

  /** Only a commit changes the tables. */
  lemma PayReads(cfg: Config, sh: Shared, c: CallId, call: Call, ch: Choice)
    requires call.req.PayReq? && !call.pc.PayCommit? && PayStep(cfg, sh, c, call, ch).Some?
    ensures SameRows(sh, PayStep(cfg, sh, c, call, ch).value.sh)
  {
    PayQuiet(cfg, sh, c, call, ch);
  }

  lemma PayCommitChanges(cfg: Config, sh: Shared, c: CallId, call: Call, ch: Choice)
    requires call.req.PayReq? && call.pc.PayCommit? && PayInTx(cfg, sh, c, call)
    requires PayCommitStep(cfg, sh, c, call, ch).Some?
    ensures var sh' := PayCommitStep(cfg, sh, c, call, ch).value.sh;
      SameRows(sh, sh') || AddsPayment(sh, call, sh')
  {
    ChargeIsAtomic(cfg, sh, c, call);
  }

  lemma RefundReads(cfg: Config, sh: Shared, c: CallId, call: Call, ch: Choice)
    requires call.req.RefundReq? && !call.pc.RefundCommit? && RefundStep(cfg, sh, c, call, ch).Some?
    ensures SameRows(sh, RefundStep(cfg, sh, c, call, ch).value.sh)
  {
    RefundQuiet(cfg, sh, c, call, ch);
  }

  lemma RefundCommitChanges(cfg: Config, sh: Shared, c: CallId, call: Call, ch: Choice)
    requires call.req.RefundReq? && call.pc.RefundCommit? && RefundInTx(cfg, sh, c, call)
    requires RefundCommitStep(cfg, sh, c, call, ch).Some?
    ensures var sh' := RefundCommitStep(cfg, sh, c, call, ch).value.sh;
      SameRows(sh, sh') || AddsRefund(sh, call, sh')
  {
    RefundOverlay(cfg, sh, c, call);
  }

  lemma PayChanges(cfg: Config, sh: Shared, c: CallId, call: Call, ch: Choice)
    requires call.req.PayReq? && PayInv(cfg, sh, c, call) && PayStep(cfg, sh, c, call, ch).Some?
    ensures var sh' := PayStep(cfg, sh, c, call, ch).value.sh;
      SameRows(sh, sh') || AddsPayment(sh, call, sh')
  {
    if call.pc.PayCommit? {
      PayCommitChanges(cfg, sh, c, call, ch);
    } else {
      PayReads(cfg, sh, c, call, ch);
    }
  }

  lemma RefundChanges(cfg: Config, sh: Shared, c: CallId, call: Call, ch: Choice)
    requires call.req.RefundReq? && RefundInv(cfg, sh, c, call) && RefundStep(cfg, sh, c, call, ch).Some?
    ensures var sh' := RefundStep(cfg, sh, c, call, ch).value.sh;
      SameRows(sh, sh') || AddsRefund(sh, call, sh')
  {
    if call.pc.RefundCommit? {
      RefundCommitChanges(cfg, sh, c, call, ch);
    } else {
      RefundReads(cfg, sh, c, call, ch);
    }
  }

  lemma StatusChanges(cfg: Config, sh: Shared, c: CallId, call: Call, ch: Choice)
    requires call.req.StatusReq? && CallSettles(call) && StatusCallInv(cfg, sh, c, call)
    requires StatusStep(cfg, sh, c, call, ch).Some?
    ensures var sh' := StatusStep(cfg, sh, c, call, ch).value.sh;
      SameRows(sh, sh') || SetsStatus(sh, call, sh')
  {
  }

  lemma StepChanges(cfg: Config, sh: Shared, c: CallId, call: Call, ch: Choice)
    requires CallSettles(call) && CallInv(cfg, sh, c, call) && Step(cfg, sh, c, call, ch).Some?
    ensures Changes(sh, call, Step(cfg, sh, c, call, ch).value.sh)
  {
    if ch != Crash {
      match call.req
      case PayReq(_) => PayChanges(cfg, sh, c, call, ch);
      case RefundReq(_) => RefundChanges(cfg, sh, c, call, ch);
      case StatusReq(_, _) => StatusChanges(cfg, sh, c, call, ch);
    }
  }

  // ---------- Updates that settle ----------

  /** Callers make no status updates, or only ones that write no refundable status. */
  predicate UpdatesSettle(cfg: Config) {
    !cfg.admin || cfg.settled
  }

  ghost predicate SettledInv(cfg: Config, s: State) {
    && EachEvent(cfg, s.sh.log, UpdateSettles)
    && (forall c :: c in s.calls ==> CallSettles(s.calls[c]))
  }

  lemma SettledAct(cfg: Config, s: State, c: CallId, ch: Choice)
    requires StateInv(cfg, s) && SettledInv(cfg, s) && c in s.calls && Step(cfg, s.sh, c, s.calls[c], ch).Some?
    ensures var n := Step(cfg, s.sh, c, s.calls[c], ch).value;
      SettledInv(cfg, State(n.sh, s.calls[c := n.call]))
  {
    var n := Step(cfg, s.sh, c, s.calls[c], ch).value;
    StepRecords(cfg, s.sh, c, s.calls[c], ch);
    StepKeepsRequest(cfg, s.sh, c, s.calls[c], ch);
    assert Logs(c, s.calls[c], ch, s.sh, n.sh);
    if n.sh.log != s.sh.log {
      EachExtends(cfg, s.sh.log, n.sh.log[|s.sh.log|], UpdateSettles);
    }
  }

  lemma {:induction false} SettledRun(cfg: Config, ls: seq<Label>, s: State)
    requires UpdatesSettle(cfg) && Reaches(cfg, ls, s)
    ensures SettledInv(cfg, s)
    decreases |ls|
  {
    if ls == [] {
      assert s == INIT;
    } else {
      var m := |ls| - 1;
      var before := Run(cfg, INIT, ls[..m]).value;
      SettledRun(cfg, ls[..m], before);
      RunKeeps(cfg, ls[..m], before);
      if ls[m].Act? {
        SettledAct(cfg, before, ls[m].c, ls[m].ch);
      }
    }
  }

  // ---------- One live payment per order ----------

  /** The payment row a call is about to insert. */
  function Draft(pc: Pc): Option<Payment> {
    match pc
    case PayGateway(_, p) => Some(p)
    case PayBegin(p, _, _) => Some(p)
    case PayInsert(p, _, _) => Some(p)
    case PayMark(p, _, _) => Some(p)
    case PayAudit(p, _, _) => Some(p)
    case PayFinish(p, _, _, _) => Some(p)
    case PayCommit(p, _, _, _) => Some(p)
    case _ => None
  }

  /** A COMPLETED payment is newer than every other payment of its order; hence there is at most one. */
  ghost predicate LiveIsNewest(db: Db) {
    forall p, q :: p in db.payments && q in db.payments && p != q ==>
      db.payments[p].orderId == db.payments[q].orderId && db.payments[p].status == Completed ==>
        db.payments[q].createdAt < db.payments[p].createdAt
  }

  /** No payment of the order is live, and all of them are older than the draft. */
  ghost predicate OrderIsFree(db: Db, draft: Payment) {
    forall q :: q in db.payments && db.payments[q].orderId == draft.orderId
      ==> db.payments[q].status != Completed && db.payments[q].createdAt < draft.createdAt
  }

  /** The row a call is about to insert belongs to its own order, which is free. */
  ghost predicate DraftFits(db: Db, call: Call) {
    Draft(call.pc).Some? ==>
      call.req.PayReq? && Draft(call.pc).value.orderId == call.req.pay.orderId && OrderIsFree(db, Draft(call.pc).value)
  }

  ghost predicate DraftsFree(s: State) {
    forall c :: c in s.calls ==> DraftFits(s.sh.db, s.calls[c])
  }

  ghost predicate PaySerial(s: State) {
    forall c, d :: c in s.calls && d in s.calls && c != d ==>
      s.calls[c].req.PayReq? && ActivePay(s.calls[c], s.calls[c].req.pay.orderId) ==>
        !ActivePay(s.calls[d], s.calls[c].req.pay.orderId)
  }

  ghost predicate OrderInv(s: State) {
    LiveIsNewest(s.sh.db) && DraftsFree(s) && PaySerial(s)
  }

  /** When the newest payment of the order is not live, none is. */
  lemma NewestNotLive(sh: Shared, orderId: string, found: Option<Id>, draft: Payment)
    requires LiveIsNewest(sh.db) && OrderLookup(sh.db, orderId, found) && draft.orderId == orderId
    requires found.Some? ==> sh.db.payments[found.value].status != Completed
    requires forall p :: p in sh.db.payments ==> sh.db.payments[p].createdAt < draft.createdAt
    ensures OrderIsFree(sh.db, draft)
  {
  }

  /**
    Looking the order up, and finding nothing live, makes the draft; every other step keeps its order and time, or drops
    it.
  */
  lemma OrderMakesDraft(cfg: Config, sh: Shared, c: CallId, call: Call, ch: Choice)
    requires call.req.PayReq? && call.pc.PayOrder? && PayOrderStep(cfg, sh, c, call, ch).Some?
    ensures var n := PayOrderStep(cfg, sh, c, call, ch).value;
      && n.call.req == call.req
      && (Draft(n.call.pc).Some? ==>
            && SameRows(sh, n.sh) && ch.FoundFresh? && OrderLookup(sh.db, call.req.pay.orderId, ch.row)
            && Draft(n.call.pc).value.orderId == call.req.pay.orderId && Draft(n.call.pc).value.createdAt == sh.clock
            && (ch.row.Some? ==> sh.db.payments[ch.row.value].status != Completed))
  {
  }

  ghost predicate KeepsDraft(call: Call, n: Next) {
    && n.call.req == call.req
    && (Draft(n.call.pc).Some? ==>
          && Draft(call.pc).Some?
          && Draft(n.call.pc).value.orderId == Draft(call.pc).value.orderId
          && Draft(n.call.pc).value.createdAt == Draft(call.pc).value.createdAt)
  }

  lemma DraftKeptOutsideTx(cfg: Config, sh: Shared, c: CallId, call: Call, ch: Choice)
    requires call.req.PayReq? && PayStep(cfg, sh, c, call, ch).Some?
    requires call.pc.PayLookup? || call.pc.PayGateway? || call.pc.PayBegin? || call.pc.PayRecover? || call.pc.Aborting?
    ensures KeepsDraft(call, PayStep(cfg, sh, c, call, ch).value)
  {
  }

  lemma DraftKeptInTx(cfg: Config, sh: Shared, c: CallId, call: Call, ch: Choice)
    requires call.req.PayReq? && PayStep(cfg, sh, c, call, ch).Some?
    requires call.pc.PayInsert? || call.pc.PayMark? || call.pc.PayAudit? || call.pc.PayFinish? || call.pc.PayCommit?
    ensures KeepsDraft(call, PayStep(cfg, sh, c, call, ch).value)
    ensures call.pc.PayCommit? ==> Draft(PayStep(cfg, sh, c, call, ch).value.call.pc).None?
  {
  }

  lemma RefundHasNoDraft(cfg: Config, sh: Shared, c: CallId, call: Call, ch: Choice)
    requires !call.req.PayReq? && Step(cfg, sh, c, call, ch).Some?
    ensures Step(cfg, sh, c, call, ch).value.call.req == call.req
    ensures Draft(Step(cfg, sh, c, call, ch).value.call.pc).None?
  {
  }

  /** A refund never touches an order that has no live payment. */
  lemma RefundLeavesFree(sh: Shared, call: Call, sh': Shared, draft: Payment)
    requires NeverPending(sh.db) && AddsRefund(sh, call, sh') && OrderIsFree(sh.db, draft)
    ensures OrderIsFree(sh'.db, draft)
  {
  }

  lemma LiveKept(sh: Shared, call: Call, sh': Shared)
    requires NeverPending(sh.db) && LiveIsNewest(sh.db)
    requires Changes(sh, call, sh')
    requires AddsPayment(sh, call, sh') ==> OrderIsFree(sh.db, call.pc.p)
    ensures LiveIsNewest(sh'.db)
  {
  }

  lemma DraftsKept(s: State, c: CallId, n: Next, d: CallId)
    requires NeverPending(s.sh.db) && DraftsFree(s) && PaySerial(s) && c in s.calls && d in s.calls && d != c
    requires Draft(s.calls[d].pc).Some?
    requires !s.calls[c].Finished()
    requires Changes(s.sh, s.calls[c], n.sh)
    ensures OrderIsFree(n.sh.db, Draft(s.calls[d].pc).value)
  {
    var draft := Draft(s.calls[d].pc).value;
    assert DraftFits(s.sh.db, s.calls[d]) && DraftFits(s.sh.db, s.calls[c]);
    if AddsPayment(s.sh, s.calls[c], n.sh) {
      assert Draft(s.calls[c].pc) == Some(s.calls[c].pc.p);
      assert ActivePay(s.calls[d], s.calls[d].req.pay.orderId);
      assert s.calls[c].pc.p.orderId != draft.orderId;
    } else if AddsRefund(s.sh, s.calls[c], n.sh) {
      RefundLeavesFree(s.sh, s.calls[c], n.sh, draft);
    }
  }

  /** The draft of the call that steps. */
  lemma OwnDraftKept(cfg: Config, s: State, c: CallId, ch: Choice)
    requires SharedInv(cfg, s.sh) && LiveIsNewest(s.sh.db) && DraftsFree(s) && c in s.calls
    requires Step(cfg, s.sh, c, s.calls[c], ch).Some?
    ensures var n := Step(cfg, s.sh, c, s.calls[c], ch).value;
      n.call.req == s.calls[c].req && DraftFits(n.sh.db, n.call)
  {
    var call := s.calls[c];
    var n := Step(cfg, s.sh, c, call, ch).value;
    if call.req.PayReq? && ch != Crash {
      if call.pc.PayOrder? {
        OrderMakesDraft(cfg, s.sh, c, call, ch);
        if Draft(n.call.pc).Some? {
          NewestNotLive(s.sh, call.req.pay.orderId, ch.row, Draft(n.call.pc).value);
        }
      } else {
        if call.pc.PayLookup? || call.pc.PayGateway? || call.pc.PayBegin? || call.pc.PayRecover? || call.pc.Aborting? {
          DraftKeptOutsideTx(cfg, s.sh, c, call, ch);
        } else {
          DraftKeptInTx(cfg, s.sh, c, call, ch);
        }
        if !call.pc.PayCommit? {
          PayReads(cfg, s.sh, c, call, ch);
        }
      }
    } else {
      if !call.req.PayReq? {
        RefundHasNoDraft(cfg, s.sh, c, call, ch);
      }
    }
  }

  lemma OrderActKeeps(cfg: Config, s: State, c: CallId, ch: Choice)
    requires StateInv(cfg, s) && SettledInv(cfg, s) && OrderInv(s)
    requires c in s.calls && Step(cfg, s.sh, c, s.calls[c], ch).Some?
    ensures var n := Step(cfg, s.sh, c, s.calls[c], ch).value;
      OrderInv(State(n.sh, s.calls[c := n.call]))
  {
    LiveActKeeps(cfg, s, c, ch);
    DraftsActKeep(cfg, s, c, ch);
    OwnDraftKept(cfg, s, c, ch);
  }

  lemma LiveActKeeps(cfg: Config, s: State, c: CallId, ch: Choice)
    requires StateInv(cfg, s) && SettledInv(cfg, s) && OrderInv(s)
    requires c in s.calls && Step(cfg, s.sh, c, s.calls[c], ch).Some?
    ensures LiveIsNewest(Step(cfg, s.sh, c, s.calls[c], ch).value.sh.db)
  {
    var n := Step(cfg, s.sh, c, s.calls[c], ch).value;
    ReplayNeverPending(cfg, s.sh.log);
    StepChanges(cfg, s.sh, c, s.calls[c], ch);
    if AddsPayment(s.sh, s.calls[c], n.sh) {
      assert Draft(s.calls[c].pc) == Some(s.calls[c].pc.p);
    }
    LiveKept(s.sh, s.calls[c], n.sh);
  }

  lemma DraftsActKeep(cfg: Config, s: State, c: CallId, ch: Choice)
    requires StateInv(cfg, s) && SettledInv(cfg, s) && OrderInv(s)
    requires c in s.calls && Step(cfg, s.sh, c, s.calls[c], ch).Some?
    ensures var n := Step(cfg, s.sh, c, s.calls[c], ch).value;
      DraftsFree(State(n.sh, s.calls[c := n.call]))
  {
    StepChanges(cfg, s.sh, c, s.calls[c], ch);
    ReplayNeverPending(cfg, s.sh.log);
    OwnDraftKept(cfg, s, c, ch);
    DraftsPut(s, c, Step(cfg, s.sh, c, s.calls[c], ch).value);
  }

  lemma DraftsPut(s: State, c: CallId, n: Next)
    requires NeverPending(s.sh.db) && DraftsFree(s) && PaySerial(s) && c in s.calls && !s.calls[c].Finished()
    requires Changes(s.sh, s.calls[c], n.sh)
    requires DraftFits(n.sh.db, n.call)
    ensures DraftsFree(State(n.sh, s.calls[c := n.call]))
  {
    forall d | d in s.calls && d != c
      ensures DraftFits(n.sh.db, s.calls[d])
    {
      assert DraftFits(s.sh.db, s.calls[d]) && DraftFits(s.sh.db, s.calls[c]);
      if Draft(s.calls[d].pc).Some? {
        DraftsKept(s, c, n, d);
      }
    }
  }

  lemma OrderStarts(cfg: Config, s: State, c: CallId, req: Request)
    requires cfg.serialPay && OrderInv(s) && CanStart(cfg, s, c, req)
    ensures OrderInv(s.(calls := s.calls[c := NewCall(s, req)]))
  {
  }

  lemma {:induction false} OrderRun(cfg: Config, ls: seq<Label>, s: State)
    requires cfg.serialPay && UpdatesSettle(cfg) && Reaches(cfg, ls, s)
    ensures OrderInv(s)
    decreases |ls|
  {
    if ls == [] {
    } else {
      var m := |ls| - 1;
      var before := Run(cfg, INIT, ls[..m]).value;
      OrderRun(cfg, ls[..m], before);
      RunKeeps(cfg, ls[..m], before);
      SettledRun(cfg, ls[..m], before);
      match ls[m]
      case Start(c, req) => OrderStarts(cfg, before, c, req);
      case Act(c, ch) => OrderActKeeps(cfg, before, c, ch);
    }
  }

  /**
    When payment calls for one order do not overlap, and status updates write no refundable status, at most one of its
    payments is live, and that one is the newest.
  */
  lemma OneLivePerOrder(cfg: Config, ls: seq<Label>, s: State, p: Id, q: Id)
    requires cfg.serialPay && UpdatesSettle(cfg) && Reaches(cfg, ls, s)
    requires p in s.sh.db.payments && q in s.sh.db.payments
    requires s.sh.db.payments[p].orderId == s.sh.db.payments[q].orderId
    requires s.sh.db.payments[p].status == Completed
    ensures NewestOfOrder(s.sh.db, p)
    ensures s.sh.db.payments[q].status == Completed ==> p == q
  {
    OrderRun(cfg, ls, s);
  }

  // ---------- The checks hold where the charge takes effect ----------

  predicate BothLive(p: Payment, q: Payment) {
    p.orderId == q.orderId && p.status == Completed && q.status == Completed
  }

  ghost predicate OneLive(db: Db) {
    forall p, q :: p in db.payments && q in db.payments && BothLive(db.payments[p], db.payments[q]) ==> p == q
  }

  /** No payment of the order is COMPLETED. */
  predicate OrderUnpaid(db: Db, orderId: string) {
    forall q :: q in db.payments && db.payments[q].orderId == orderId ==> db.payments[q].status != Completed
  }

  /** A charge takes effect only while its order is unpaid. */
  predicate ChargePermitted(db: Db, e: Event) {
    e.op.ChargeOp? && e.req.PayReq? ==> OrderUnpaid(db, e.req.pay.orderId)
  }

  lemma PermittedStep(cfg: Config, s: State, c: CallId, ch: Choice)
    requires StateInv(cfg, s) && OrderInv(s) && c in s.calls && Step(cfg, s.sh, c, s.calls[c], ch).Some?
    requires EachEvent(cfg, s.sh.log, ChargePermitted)
    ensures EachEvent(cfg, Step(cfg, s.sh, c, s.calls[c], ch).value.sh.log, ChargePermitted)
  {
    var n := Step(cfg, s.sh, c, s.calls[c], ch).value;
    StepRecords(cfg, s.sh, c, s.calls[c], ch);
    assert Logs(c, s.calls[c], ch, s.sh, n.sh);
    assert DraftFits(s.sh.db, s.calls[c]);
    if n.sh.log != s.sh.log {
      EachExtends(cfg, s.sh.log, n.sh.log[|s.sh.log|], ChargePermitted);
    }
  }

  lemma {:induction false} PermittedRun(cfg: Config, ls: seq<Label>, s: State)
    requires cfg.serialPay && UpdatesSettle(cfg) && Reaches(cfg, ls, s)
    ensures EachEvent(cfg, s.sh.log, ChargePermitted)
    decreases |ls|
  {
    if ls == [] {
      assert s == INIT;
    } else {
      var m := |ls| - 1;
      var before := Run(cfg, INIT, ls[..m]).value;
      PermittedRun(cfg, ls[..m], before);
      RunKeeps(cfg, ls[..m], before);
      OrderRun(cfg, ls[..m], before);
      if ls[m].Act? {
        PermittedStep(cfg, before, ls[m].c, ls[m].ch);
      }
    }
  }

  lemma NoHolder(db: Db, a: PayArgs)
    requires WellFormed(db) && (NullString(a.key).Some? ==> KeyFree(db, NullString(a.key).value))
    ensures Trim(a.key) == "" || KeyLookup(db, a.key, None)
  {
    TrimmedIffFixed(a.key);
    forall p | p in db.payments
      ensures Trim(a.key) != "" ==> db.payments[p].key != Some(a.key)
    {
      assert GoodPayment(db.payments[p], p);
    }
  }

  lemma UnpaidMayCharge(db: Db, a: PayArgs)
    requires WellFormed(db) && OrderUnpaid(db, a.orderId)
    requires NullString(a.key).Some? ==> KeyFree(db, NullString(a.key).value)
    ensures MayCharge(db, a)
  {
    NoHolder(db, a);
    var latest := OrderLookupAnswers(db, a.orderId);
    assert NotLive(db, a.orderId, latest);
  }

  lemma ChargeMeans(cfg: Config, db: Db, e: Event)
    requires ApplyEvent(cfg, db, e).Some? && e.op.ChargeOp?
    ensures e.req.PayReq? && (NullString(e.req.pay.key).Some? ==> KeyFree(db, NullString(e.req.pay.key).value))
  {
  }

  lemma PermittedAt(cfg: Config, log: seq<Event>, i: nat)
    requires Replay(cfg, log).Some? && EachEvent(cfg, log, ChargePermitted) && i < |log| && log[i].op.ChargeOp?
    ensures log[i].req.PayReq? && Replay(cfg, log[..i]).Some?
    ensures MayCharge(Replay(cfg, log[..i]).value, log[i].req.pay)
  {
    ReplayAt(cfg, log, i);
    ReplayKeeps(cfg, log[..i]);
    ChargeMeans(cfg, Replay(cfg, log[..i]).value, log[i]);
    UnpaidMayCharge(Replay(cfg, log[..i]).value, log[i].req.pay);
  }

  /**
    When payment calls of one order do not overlap, and status updates write no refundable status, every charge takes
    effect at a moment when ProcessPayment's own checks, the lookups by key and by order, would let it pass: in the
    serial order it is the whole procedure.
  */
  lemma ChargesArePermitted(cfg: Config, ls: seq<Label>, s: State, i: nat)
    requires cfg.serialPay && UpdatesSettle(cfg) && Reaches(cfg, ls, s) && i < |s.sh.log| && s.sh.log[i].op.ChargeOp?
    ensures s.sh.log[i].req.PayReq? && Replay(cfg, s.sh.log[..i]).Some?
    ensures MayCharge(Replay(cfg, s.sh.log[..i]).value, s.sh.log[i].req.pay)
  {
    RunKeeps(cfg, ls, s);
    PermittedRun(cfg, ls, s);
    PermittedAt(cfg, s.sh.log, i);
  }

  // ---------- And only those checks are needed ----------

  lemma ChargeKeepsOne(db: Db, db': Db, p: Payment, t: Txn)
    requires OneLive(db) && ChargeEffect(db, db', p, t) && OrderUnpaid(db, p.orderId)
    ensures OneLive(db')
  {
  }

  lemma RefundKeepsOne(db: Db, db': Db, p: Id, st: PaymentStatus, r: Refund, t: Txn)
    requires OneLive(db) && NeverPending(db) && RefundEffect(db, db', p, st, r, t)
    ensures OneLive(db')
  {
  }

  lemma PermittedKeepsOne(cfg: Config, db: Db, e: Event)
    requires OneLive(db) && NeverPending(db) && ApplyEvent(cfg, db, e).Some?
    requires ChargePermitted(db, e) && UpdateSettles(db, e)
    ensures OneLive(ApplyEvent(cfg, db, e).value)
  {
    var db' := ApplyEvent(cfg, db, e).value;
    match e.op
    case ChargeOp(pid, tid, now, res, _) =>
      ChargeHasEffect(cfg.router, db, e.req.pay, pid, tid, now, res, db', e.resp.payment);
      ChargeKeepsOne(db, db', e.resp.payment, db'.txns[tid]);
    case RefundOp(rid, tid, now, res, _) =>
      var p := e.req.refund.paymentId;
      RefundHasEffect(cfg.router, db, e.req.refund, rid, tid, now, res, db', e.resp.refund);
      RefundKeepsOne(db, db', p, db'.payments[p].status, e.resp.refund, db'.txns[tid]);
    case StatusOp =>
    case ReadOp =>
  }

  /**
    A history in which every charge finds its order unpaid, and updates write no refundable status, leaves at most one
    live payment per order.
  */
  lemma {:induction false} PermittedIsEnough(cfg: Config, log: seq<Event>)
    requires Replay(cfg, log).Some? && EachEvent(cfg, log, ChargePermitted) && EachEvent(cfg, log, UpdateSettles)
    ensures OneLive(Replay(cfg, log).value)
  {
    if log == [] {
    } else {
      var n := |log| - 1;
      assert forall i :: 0 <= i < n ==> log[..n][..i] == log[..i];
      PermittedIsEnough(cfg, log[..n]);
      ReplayNeverPending(cfg, log[..n]);
      PermittedKeepsOne(cfg, Replay(cfg, log[..n]).value, log[n]);
    }
  }
}
