/** The invariant of whole states, kept by every step of every run. */
module Runs {
  import opened Base
  import opened Domain
  import opened Protocol
  import opened Refinement
  import opened Steps

  /** Every lock, key, event and gateway call belongs to a call that was started. */
  ghost predicate Traced(s: State) {
    && (forall p :: p in s.sh.locks ==> s.sh.locks[p] in s.calls)
    && (forall k :: k in s.sh.keys ==> s.sh.keys[k] in s.calls)
    && (forall i :: 0 <= i < |s.sh.log| ==> s.sh.log[i].cid in s.calls)
    && (forall i :: 0 <= i < |s.sh.gateway| ==> s.sh.gateway[i].cid in s.calls)
  }

  ghost predicate StateInv(cfg: Config, s: State) {
    && SharedInv(cfg, s.sh) && Traced(s)
    && (forall c :: c in s.calls ==> CallInv(cfg, s.sh, c, s.calls[c]))
  }

  lemma PayStepKeeps(cfg: Config, sh: Shared, c: CallId, call: Call, ch: Choice)
    requires SharedInv(cfg, sh) && CallInv(cfg, sh, c, call) && call.req.PayReq?
    requires PayStep(cfg, sh, c, call, ch).Some?
    ensures StepOk(cfg, sh, c, PayStep(cfg, sh, c, call, ch).value)
  {
    match call.pc
    case PayLookup => PayLookupOk(cfg, sh, c, call, ch);
    case PayOrder => PayOrderOk(cfg, sh, c, call, ch);
    case PayGateway(_, _) => PayGatewayOk(cfg, sh, c, call, ch);
    case PayBegin(_, _, _) => PayBeginOk(cfg, sh, c, call, ch);
    case PayInsert(_, _, _) => PayInsertOk(cfg, sh, c, call, ch);
    case PayMark(_, _, _) => PayMarkOk(cfg, sh, c, call, ch);
    case PayAudit(_, _, _) => PayAuditOk(cfg, sh, c, call, ch);
    case PayFinish(_, _, _, _) => PayFinishOk(cfg, sh, c, call, ch);
    case PayCommit(_, _, _, _) => PayCommitOk(cfg, sh, c, call, ch);
    case PayRecover => PayRecoverOk(cfg, sh, c, call, ch);
    case Aborting(_, _) => PayRollbackOk(cfg, sh, c, call, ch);
    case _ =>
  }

  lemma RefundStepKeeps(cfg: Config, sh: Shared, c: CallId, call: Call, ch: Choice)
    requires SharedInv(cfg, sh) && CallInv(cfg, sh, c, call) && call.req.RefundReq?
    requires RefundStep(cfg, sh, c, call, ch).Some?
    ensures StepOk(cfg, sh, c, RefundStep(cfg, sh, c, call, ch).value)
  {
    match call.pc
    case RefundLookup => RefundLookupOk(cfg, sh, c, call, ch);
    case RefundRead => RefundReadOk(cfg, sh, c, call, ch);
    case RefundBegin(_, _) => RefundBeginOk(cfg, sh, c, call, ch);
    case RefundLock(_, _) => RefundLockOk(cfg, sh, c, call, ch);
    case RefundFold(_, _, _) => RefundFoldOk(cfg, sh, c, call, ch);
    case RefundCreate(_, _, _, _) => RefundCreateOk(cfg, sh, c, call, ch);
    case RefundMark(_, _, _, _) => RefundMarkOk(cfg, sh, c, call, ch);
    case RefundProcess(_, _, _, _) => RefundProcessOk(cfg, sh, c, call, ch);
    case RefundGateway(_, _, _, _) => RefundGatewayOk(cfg, sh, c, call, ch);
    case RefundAudit(_, _, _, _, _) => RefundAuditOk(cfg, sh, c, call, ch);
    case RefundFinish(_, _, _, _, _, _) => RefundFinishOk(cfg, sh, c, call, ch);
    case RefundStore(_, _, _, _) => RefundStoreOk(cfg, sh, c, call, ch);
    case RefundCommit(_, _, _, _) => RefundCommitOk(cfg, sh, c, call, ch);
    case Aborting(_, _) => RefundRollbackOk(cfg, sh, c, call, ch);
    case _ =>
  }

  lemma StatusReadOk(cfg: Config, sh: Shared, c: CallId, call: Call, ch: Choice)
    requires SharedInv(cfg, sh) && CallInv(cfg, sh, c, call) && call.req.StatusReq? && call.pc.StatusRead?
    requires StatusReadStep(cfg, sh, c, call, ch).Some?
    ensures StepOk(cfg, sh, c, StatusReadStep(cfg, sh, c, call, ch).value)
  {
    if ch == Fault {
      GiveUpOk(cfg, sh, c, call);
    } else if call.req.paymentId !in sh.db.payments {
      AnswerOk(cfg, sh, c, call, Rejected(PaymentNotFound));
    } else {
      Unchanged(sh, c);
    }
  }

  /** An unlocked row may be rewritten from a stale copy: all that the copy can differ in is the status being set. */
  lemma StatusGuarantee(sh: Shared, sh': Shared, c: CallId, pid: Id, p: Payment, e: Event)
    requires pid in sh.db.payments && pid !in sh.locks && SameButStatus(sh.db.payments[pid], p) && e.cid == c
    requires sh' == sh.(log := sh.log + [e], db := sh.db.(payments := sh.db.payments[pid := p]))
    ensures Guarantee(sh, sh', c)
  {
  }

  lemma StatusCommitted(cfg: Config, sh: Shared, c: CallId, req: Request, p: Payment)
    requires SharedInv(cfg, sh) && req.StatusReq? && cfg.admin && req.paymentId in sh.db.payments
    requires req.paymentId !in sh.locks
    requires p == sh.db.payments[req.paymentId].(status := req.status)
    ensures var sh' := Record(sh.(db := sh.db.(payments := sh.db.payments[req.paymentId := p])),
                              Event(c, req, StatusOp, StatusSet(p)));
      SharedInv(cfg, sh') && Guarantee(sh, sh', c)
  {
    var e := Event(c, req, StatusOp, StatusSet(p));
    var db := sh.db.(payments := sh.db.payments[req.paymentId := p]);
    assert AtomicStatus(sh.db, req.paymentId, req.status) == Ok((db, p));
    CommitKeeps(cfg, sh, db, e);
    StatusGuarantee(sh, Record(sh.(db := db), e), c, req.paymentId, p, e);
  }

  /** The update takes effect, and its reply arrives or is lost. */
  lemma StatusWritten(cfg: Config, sh: Shared, c: CallId, call: Call, pc: Pc)
    requires SharedInv(cfg, sh) && CallInv(cfg, sh, c, call) && call.req.StatusReq? && call.pc.StatusWrite?
    requires call.req.paymentId !in sh.locks
    requires pc == Done(StatusSet(call.pc.p), |sh.log|) || pc == Done(Rejected(StoreFailure), 0)
    ensures var sh' := Record(sh.(db := sh.db.(payments := sh.db.payments[call.req.paymentId := call.pc.p])),
                              Event(c, call.req, StatusOp, StatusSet(call.pc.p)));
      StepOk(cfg, sh, c, Goto(sh', call, pc))
  {
    var e := Event(c, call.req, StatusOp, StatusSet(call.pc.p));
    var sh' := Record(sh.(db := sh.db.(payments := sh.db.payments[call.req.paymentId := call.pc.p])), e);
    StatusCommitted(cfg, sh, c, call.req, call.pc.p);
    EventDone(cfg, sh, sh', c, call, pc, e);
  }

  lemma StatusWriteOk(cfg: Config, sh: Shared, c: CallId, call: Call, ch: Choice)
    requires SharedInv(cfg, sh) && CallInv(cfg, sh, c, call) && call.req.StatusReq? && call.pc.StatusWrite?
    requires StatusWriteStep(cfg, sh, c, call, ch).Some?
    ensures StepOk(cfg, sh, c, StatusWriteStep(cfg, sh, c, call, ch).value)
  {
    match ch
    case Go => StatusWritten(cfg, sh, c, call, Done(StatusSet(call.pc.p), |sh.log|));
    case Lost => StatusWritten(cfg, sh, c, call, Done(Rejected(StoreFailure), 0));
    case _ => GiveUpOk(cfg, sh, c, call);
  }

  lemma StepKeeps(cfg: Config, sh: Shared, c: CallId, call: Call, ch: Choice)
    requires SharedInv(cfg, sh) && CallInv(cfg, sh, c, call)
    requires Step(cfg, sh, c, call, ch).Some?
    ensures StepOk(cfg, sh, c, Step(cfg, sh, c, call, ch).value)
  {
    if ch == Crash {
      AlwaysAtMostOne(cfg, sh, c, call);
      EndTxOk(cfg, sh, c, call, Gone);
    } else {
      match call.req
      case PayReq(_) => PayStepKeeps(cfg, sh, c, call, ch);
      case RefundReq(_) => RefundStepKeeps(cfg, sh, c, call, ch);
      case StatusReq(_, _) =>
        if call.pc.StatusRead? {
          StatusReadOk(cfg, sh, c, call, ch);
        } else {
          StatusWriteOk(cfg, sh, c, call, ch);
        }
    }
  }

  lemma StartKeeps(cfg: Config, s: State, c: CallId, req: Request)
    requires StateInv(cfg, s) && CanStart(cfg, s, c, req)
    ensures StateInv(cfg, s.(calls := s.calls[c := NewCall(s, req)]))
  {
    assert NoEvent(s.sh, c);
    assert CallInv(cfg, s.sh, c, NewCall(s, req));
  }

  lemma ActKeeps(cfg: Config, s: State, c: CallId, ch: Choice)
    requires StateInv(cfg, s) && c in s.calls && Step(cfg, s.sh, c, s.calls[c], ch).Some?
    ensures var n := Step(cfg, s.sh, c, s.calls[c], ch).value;
      StateInv(cfg, State(n.sh, s.calls[c := n.call])) && Guarantee(s.sh, n.sh, c)
  {
    var n := Step(cfg, s.sh, c, s.calls[c], ch).value;
    StepKeeps(cfg, s.sh, c, s.calls[c], ch);
    forall d | d in s.calls && d != c
      ensures CallInv(cfg, n.sh, d, s.calls[d])
    {
      Stable(cfg, s.sh, n.sh, c, d, s.calls[d]);
    }
    TracedKept(s, n, c);
  }

  lemma TracedKept(s: State, n: Next, c: CallId)
    requires Traced(s) && c in s.calls && Guarantee(s.sh, n.sh, c)
    ensures Traced(State(n.sh, s.calls[c := n.call]))
  {
    var s' := State(n.sh, s.calls[c := n.call]);
    forall i | 0 <= i < |s'.sh.log|
      ensures s'.sh.log[i].cid in s'.calls
    {
      assert i < |s.sh.log| ==> s'.sh.log[i] == s.sh.log[i];
    }
    forall i | 0 <= i < |s'.sh.gateway|
      ensures s'.sh.gateway[i].cid in s'.calls
    {
      assert i < |s.sh.gateway| ==> s'.sh.gateway[i] == s.sh.gateway[i];
    }
  }

  lemma MoveKeeps(cfg: Config, s: State, l: Label)
    requires StateInv(cfg, s) && Move(cfg, s, l).Some?
    ensures StateInv(cfg, Move(cfg, s, l).value)
  {
    match l
    case Start(c, req) => StartKeeps(cfg, s, c, req);
    case Act(c, ch) => ActKeeps(cfg, s, c, ch);
  }

  /** The state after the whole of a run from the empty store. */
  ghost predicate Reaches(cfg: Config, ls: seq<Label>, s: State) {
    Run(cfg, INIT, ls) == Some(s)
  }

  lemma {:induction false} RunKeeps(cfg: Config, ls: seq<Label>, s: State)
    requires Reaches(cfg, ls, s)
    ensures StateInv(cfg, s)
    decreases |ls|
  {
    if ls == [] {
      assert Replay(cfg, []) == Some(EMPTY_DB);
    } else {
      var before := Run(cfg, INIT, ls[..|ls| - 1]).value;
      RunKeeps(cfg, ls[..|ls| - 1], before);
      MoveKeeps(cfg, before, ls[|ls| - 1]);
    }
  }

  /** Every prefix of a run is a run. */
  lemma {:induction false} RunPrefix(cfg: Config, ls: seq<Label>, n: nat)
    requires n <= |ls| && Run(cfg, INIT, ls).Some?
    ensures Run(cfg, INIT, ls[..n]).Some?
    decreases |ls|
  {
    if n == |ls| {
      assert ls[..n] == ls;
    } else {
      RunPrefix(cfg, ls[..|ls| - 1], n);
      assert ls[..|ls| - 1][..n] == ls[..n];
    }
  }

  /** What happened stays recorded: the log of an earlier state is a prefix of every later one. */
  lemma {:induction false} LogPrefix(cfg: Config, ls: seq<Label>, n: nat, early: State, late: State)
    requires n <= |ls| && Reaches(cfg, ls[..n], early) && Reaches(cfg, ls, late)
    ensures |early.sh.log| <= |late.sh.log| && late.sh.log[..|early.sh.log|] == early.sh.log
    decreases |ls|
  {
    if n == |ls| {
      assert ls[..n] == ls;
    } else {
      var m := |ls| - 1;
      var before := Run(cfg, INIT, ls[..m]).value;
      assert ls[..m][..n] == ls[..n];
      LogPrefix(cfg, ls[..m], n, early, before);
      RunKeeps(cfg, ls[..m], before);
      if ls[m].Act? {
        ActKeeps(cfg, before, ls[m].c, ls[m].ch);
      }
      assert forall i :: 0 <= i < |before.sh.log| ==> late.sh.log[i] == before.sh.log[i];
      assert forall i :: 0 <= i < |early.sh.log| ==> early.sh.log[i] == before.sh.log[..|early.sh.log|][i];
    }
  }
}
