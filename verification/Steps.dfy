/**
  Each step keeps the shared invariant, gives its call the knowledge of its next program counter, and keeps the promise.
*/
module Steps {
  import opened Base
  import opened Text
  import opened Sums
  import opened Routing
  import opened Domain
  import opened Protocol
  import opened Refinement

  ghost predicate StepOk(cfg: Config, sh: Shared, c: CallId, n: Next) {
    SharedInv(cfg, n.sh) && CallInv(cfg, n.sh, c, n.call) && Guarantee(sh, n.sh, c)
  }

  // ---------- The ways a step changes the shared state ----------

  lemma Unchanged(sh: Shared, c: CallId)
    ensures Guarantee(sh, sh, c)
  {
  }

  lemma Released(cfg: Config, sh: Shared, c: CallId)
    requires SharedInv(cfg, sh)
    ensures SharedInv(cfg, Release(sh, c)) && Guarantee(sh, Release(sh, c), c) && HoldsNothing(Release(sh, c), c)
  {
    var sh' := Release(sh, c);
    forall i | 0 <= i < |sh'.log|
      ensures GatewayMatches(cfg, sh', sh'.log[i])
    {
      assert GatewayMatches(cfg, sh, sh.log[i]);
    }
  }

  lemma Relocked(cfg: Config, sh: Shared, sh': Shared, c: CallId)
    requires SharedInv(cfg, sh) && sh' == sh.(locks := sh'.locks, keys := sh'.keys) && LocksKept(sh, sh', c)
    ensures SharedInv(cfg, sh') && Guarantee(sh, sh', c)
  {
    forall i | 0 <= i < |sh'.log|
      ensures GatewayMatches(cfg, sh', sh'.log[i])
    {
      assert GatewayMatches(cfg, sh, sh.log[i]);
    }
  }

  lemma Recorded(cfg: Config, sh: Shared, c: CallId, req: Request, resp: Response)
    requires SharedInv(cfg, sh) && ReadSpec(cfg, sh.db, req, resp)
    ensures SharedInv(cfg, Record(sh, Event(c, req, ReadOp, resp)))
    ensures Guarantee(sh, Record(sh, Event(c, req, ReadOp, resp)), c)
  {
    var e := Event(c, req, ReadOp, resp);
    var sh' := Record(sh, e);
    ReplayExtend(cfg, sh.log, e);
    forall i | 0 <= i < |sh'.log|
      ensures GatewayMatches(cfg, sh', sh'.log[i])
    {
      if i < |sh.log| {
        assert GatewayMatches(cfg, sh, sh.log[i]);
      }
    }
  }

  lemma Drawn(cfg: Config, sh: Shared, c: CallId, id: Id)
    requires SharedInv(cfg, sh) && id !in sh.owner
    ensures SharedInv(cfg, Draw(sh, c, id)) && Guarantee(sh, Draw(sh, c, id), c)
  {
    var sh' := Draw(sh, c, id);
    forall i | 0 <= i < |sh'.log|
      ensures GatewayMatches(cfg, sh', sh'.log[i])
    {
      assert GatewayMatches(cfg, sh, sh.log[i]);
    }
  }

  lemma Called(cfg: Config, sh: Shared, c: CallId, g: GatewayCall)
    requires SharedInv(cfg, sh) && g.cid == c
    ensures SharedInv(cfg, sh.(gateway := sh.gateway + [g])) && Guarantee(sh, sh.(gateway := sh.gateway + [g]), c)
  {
    var sh' := sh.(gateway := sh.gateway + [g]);
    forall i | 0 <= i < |sh'.log|
      ensures GatewayMatches(cfg, sh', sh'.log[i])
    {
      assert GatewayMatches(cfg, sh, sh.log[i]);
    }
  }

  // ---------- The ways a call ends ----------

  ghost predicate Basic(sh: Shared, call: Call) {
    call.start <= |sh.log| && Admissible(call.req)
  }

  lemma FinishedInv(cfg: Config, sh: Shared, c: CallId, call: Call)
    requires Basic(sh, call)
    requires call.Finished()
    requires call.pc.Done? ==> DoneInv(sh, c, call, call.pc.resp, call.pc.at)
    requires call.pc.Gone? ==> Idle(sh, c, call) && AtMostOneEvent(sh, c)
    ensures CallInv(cfg, sh, c, call)
  {
  }

  lemma AnswerDone(sh: Shared, c: CallId, call: Call, resp: Response)
    requires Idle(sh, c, call) && NoEvent(sh, c) && call.start <= |sh.log|
    ensures DoneInv(Answer(sh, c, call, resp).sh, c, Answer(sh, c, call, resp).call, resp, |sh.log|)
          || resp == Rejected(StoreFailure)
  {
    var n := Answer(sh, c, call, resp);
    assert Answered(n.sh, c, n.call, resp, |sh.log|);
  }

  lemma AnswerOk(cfg: Config, sh: Shared, c: CallId, call: Call, resp: Response)
    requires SharedInv(cfg, sh) && Basic(sh, call) && Idle(sh, c, call) && NoEvent(sh, c)
    requires ReadSpec(cfg, sh.db, call.req, resp) && resp != Rejected(StoreFailure)
    ensures StepOk(cfg, sh, c, Answer(sh, c, call, resp))
  {
    var n := Answer(sh, c, call, resp);
    AnswerDone(sh, c, call, resp);
    FinishedInv(cfg, n.sh, c, n.call);
    Recorded(cfg, sh, c, call.req, resp);
  }

  lemma GiveUpOk(cfg: Config, sh: Shared, c: CallId, call: Call)
    requires SharedInv(cfg, sh) && Basic(sh, call) && Idle(sh, c, call) && NoEvent(sh, c)
    ensures StepOk(cfg, sh, c, GiveUp(sh, call))
  {
    Unchanged(sh, c);
    FinishedInv(cfg, sh, c, GiveUp(sh, call).call);
  }

  lemma FailInTxOk(cfg: Config, sh: Shared, c: CallId, call: Call)
    requires SharedInv(cfg, sh) && Basic(sh, call) && NoEvent(sh, c) && !call.req.StatusReq?
    ensures StepOk(cfg, sh, c, FailInTx(sh, call))
  {
    Unchanged(sh, c);
  }

  /** Leaving the transaction without an effect: after a rollback, a failed commit or a crash. */
  lemma EndTxOk(cfg: Config, sh: Shared, c: CallId, call: Call, pc: Pc)
    requires SharedInv(cfg, sh) && Basic(sh, call) && AtMostOneEvent(sh, c)
    requires pc == Gone || (pc.Done? && pc.resp == Rejected(StoreFailure))
    ensures StepOk(cfg, sh, c, EndTx(sh, c, call, pc))
  {
    Released(cfg, sh, c);
    var n := EndTx(sh, c, call, pc);
    assert Idle(n.sh, c, n.call) && AtMostOneEvent(n.sh, c);
    FinishedInv(cfg, n.sh, c, n.call);
  }

  /** A call takes effect at most once. */
  lemma AlwaysAtMostOne(cfg: Config, sh: Shared, c: CallId, call: Call)
    requires CallInv(cfg, sh, c, call)
    ensures AtMostOneEvent(sh, c)
  {
  }

  /** Rolling back a refund that the locked re-check rejected. */
  lemma RollbackRejected(cfg: Config, sh: Shared, c: CallId, call: Call, e: Error, at: nat)
    requires SharedInv(cfg, sh) && Basic(sh, call) && Answered(sh, c, call, Rejected(e), at) && e != StoreFailure
    ensures StepOk(cfg, sh, c, EndTx(sh, c, call, Done(Rejected(e), at)))
  {
    Released(cfg, sh, c);
    var n := EndTx(sh, c, call, Done(Rejected(e), at));
    assert Answered(n.sh, c, n.call, Rejected(e), at);
    FinishedInv(cfg, n.sh, c, n.call);
  }

  /** A call whose one event is `e` ends knowing its answer, or that its answer was lost. */
  lemma EventDone(cfg: Config, sh: Shared, sh': Shared, c: CallId, call: Call, pc: Pc, e: Event)
    requires Basic(sh, call) && NoEvent(sh, c) && HoldsNothing(sh', c) && sh'.log == sh.log + [e]
    requires e.cid == c && e.req == call.req && e.resp != Rejected(StoreFailure)
    requires pc == Done(e.resp, |sh.log|) || (pc.Done? && pc.resp == Rejected(StoreFailure))
    ensures CallInv(cfg, sh', c, call.(buf := EMPTY_DB, pc := pc))
  {
    var call' := call.(buf := EMPTY_DB, pc := pc);
    assert Idle(sh', c, call') && AtMostOneEvent(sh', c);
    assert pc == Done(e.resp, |sh.log|) ==> Answered(sh', c, call', e.resp, |sh.log|);
    FinishedInv(cfg, sh', c, call');
  }

  /** A commit: `db'` is what the atomic operation gives, and only rows of `c` are new. */
  lemma CommitOk(cfg: Config, sh: Shared, c: CallId, call: Call, op: Op, resp: Response, ch: Choice)
    requires SharedInv(cfg, sh) && Basic(sh, call) && NoEvent(sh, c) && resp != Rejected(StoreFailure)
    requires CommitStep(sh, c, call, op, resp, ch).Some?
    requires ch != Fault ==>
              Committed(cfg, sh, c, Record(sh.(db := Overlay(sh.db, call.buf)), Event(c, call.req, op, resp)))
    ensures StepOk(cfg, sh, c, CommitStep(sh, c, call, op, resp, ch).value)
  {
    var n := CommitStep(sh, c, call, op, resp, ch).value;
    if ch == Fault {
      EndTxOk(cfg, sh, c, call, Done(Rejected(StoreFailure), 0));
    } else {
      var sh' := Record(sh.(db := Overlay(sh.db, call.buf)), Event(c, call.req, op, resp));
      Released(cfg, sh', c);
      GuaranteeTransitive(sh, sh', n.sh, c);
      EventDone(cfg, sh, n.sh, c, call, n.call.pc, Event(c, call.req, op, resp));
    }
  }

  ghost predicate Committed(cfg: Config, sh: Shared, c: CallId, sh': Shared) {
    SharedInv(cfg, sh') && Guarantee(sh, sh', c)
  }

  // ---------- ProcessPayment ----------

  lemma PayLookupOk(cfg: Config, sh: Shared, c: CallId, call: Call, ch: Choice)
    requires SharedInv(cfg, sh) && CallInv(cfg, sh, c, call) && call.req.PayReq? && call.pc.PayLookup?
    requires PayLookupStep(cfg, sh, c, call, ch).Some?
    ensures StepOk(cfg, sh, c, PayLookupStep(cfg, sh, c, call, ch).value)
  {
    var n := PayLookupStep(cfg, sh, c, call, ch).value;
    Unchanged(sh, c);
    if n.call.pc.Done? {
      if n.call.pc.resp == Rejected(StoreFailure) {
        GiveUpOk(cfg, sh, c, call);
      } else {
        AnswerOk(cfg, sh, c, call, n.call.pc.resp);
      }
    }
  }

  lemma PayRecoverOk(cfg: Config, sh: Shared, c: CallId, call: Call, ch: Choice)
    requires SharedInv(cfg, sh) && CallInv(cfg, sh, c, call) && call.req.PayReq? && call.pc.PayRecover?
    requires PayRecoverStep(cfg, sh, c, call, ch).Some?
    ensures StepOk(cfg, sh, c, PayRecoverStep(cfg, sh, c, call, ch).value)
  {
    var n := PayRecoverStep(cfg, sh, c, call, ch).value;
    AnswerOk(cfg, sh, c, call, n.call.pc.resp);
  }

  lemma PayOrderNext(cfg: Config, sh: Shared, c: CallId, call: Call, ch: Choice)
    requires call.req.PayReq? && call.pc.PayOrder? && PayOutsideTx(cfg, sh, c, call)
    requires IdsMatch(sh)
    requires PayOrderStep(cfg, sh, c, call, ch).Some? && PayOrderStep(cfg, sh, c, call, ch).value.call.pc.PayGateway?
    ensures PayOutsideTx(cfg, PayOrderStep(cfg, sh, c, call, ch).value.sh, c,
                         PayOrderStep(cfg, sh, c, call, ch).value.call)
  {
  }

  lemma PayOrderOk(cfg: Config, sh: Shared, c: CallId, call: Call, ch: Choice)
    requires SharedInv(cfg, sh) && CallInv(cfg, sh, c, call) && call.req.PayReq? && call.pc.PayOrder?
    requires PayOrderStep(cfg, sh, c, call, ch).Some?
    ensures StepOk(cfg, sh, c, PayOrderStep(cfg, sh, c, call, ch).value)
  {
    var n := PayOrderStep(cfg, sh, c, call, ch).value;
    if n.call.pc.Done? {
      if n.call.pc.resp == Rejected(StoreFailure) {
        GiveUpOk(cfg, sh, c, call);
      } else {
        assert n.call.pc.resp.Rejected? ==> NotLive(sh.db, call.req.pay.orderId, ch.row);
        AnswerOk(cfg, sh, c, call, n.call.pc.resp);
      }
    } else {
      Drawn(cfg, sh, c, ch.id);
      PayOrderNext(cfg, sh, c, call, ch);
    }
  }

  lemma PayGatewayNext(cfg: Config, sh: Shared, c: CallId, call: Call, ch: Choice)
    requires call.req.PayReq? && call.pc.PayGateway? && PayOutsideTx(cfg, sh, c, call) && ch != Fault && IdsMatch(sh)
    requires PayGatewayStep(cfg, sh, c, call, ch).Some?
    ensures PayOutsideTx(cfg, PayGatewayStep(cfg, sh, c, call, ch).value.sh, c,
                         PayGatewayStep(cfg, sh, c, call, ch).value.call)
  {
  }

  lemma PayGatewayOk(cfg: Config, sh: Shared, c: CallId, call: Call, ch: Choice)
    requires SharedInv(cfg, sh) && CallInv(cfg, sh, c, call) && call.req.PayReq? && call.pc.PayGateway?
    requires PayGatewayStep(cfg, sh, c, call, ch).Some?
    ensures StepOk(cfg, sh, c, PayGatewayStep(cfg, sh, c, call, ch).value)
  {
    var n := PayGatewayStep(cfg, sh, c, call, ch).value;
    Called(cfg, sh, c, ChargeCall(c, call.pc.g, call.req.pay.amount, call.pc.p.currency, ch.res));
    PayGatewayNext(cfg, sh, c, call, ch);
  }

  lemma PayBeginNext(cfg: Config, sh: Shared, c: CallId, call: Call, ch: Choice)
    requires call.req.PayReq? && call.pc.PayBegin? && PayOutsideTx(cfg, sh, c, call) && ch != Fault && IdsMatch(sh)
    requires PayBeginStep(cfg, sh, c, call, ch).Some?
    ensures PayOutsideTx(cfg, PayBeginStep(cfg, sh, c, call, ch).value.sh, c,
                         PayBeginStep(cfg, sh, c, call, ch).value.call)
  {
  }

  lemma PayBeginOk(cfg: Config, sh: Shared, c: CallId, call: Call, ch: Choice)
    requires SharedInv(cfg, sh) && CallInv(cfg, sh, c, call) && call.req.PayReq? && call.pc.PayBegin?
    requires PayBeginStep(cfg, sh, c, call, ch).Some?
    ensures StepOk(cfg, sh, c, PayBeginStep(cfg, sh, c, call, ch).value)
  {
    var n := PayBeginStep(cfg, sh, c, call, ch).value;
    if ch == Fault {
      GiveUpOk(cfg, sh, c, call);
    } else {
      Unchanged(sh, c);
      PayBeginNext(cfg, sh, c, call, ch);
    }
  }

  /** The key is committed: the insert is refused. */
  lemma PayInsertTaken(cfg: Config, sh: Shared, c: CallId, call: Call)
    requires call.req.PayReq? && call.pc.PayInsert? && PayOutsideTx(cfg, sh, c, call)
    requires call.pc.p.key.Some? && !KeyFree(sh.db, call.pc.p.key.value)
    ensures PayOutsideTx(cfg, sh, c, call.(pc := Aborting(UniqueViolation, 0)))
  {
  }

  /** What the call knows once its row is inserted. */
  lemma PayInserted(cfg: Config, sh: Shared, c: CallId, call: Call, keys: map<string, CallId>)
    requires call.req.PayReq? && call.pc.PayInsert? && PayOutsideTx(cfg, sh, c, call)
    requires KeyHeld(sh.(keys := keys), c, call.pc.p)
    ensures var PayInsert(p, res, gi) := call.pc;
      PayInTx(cfg, sh.(keys := keys), c,
              call.(buf := call.buf.(payments := call.buf.payments[p.id := p]), pc := PayMark(p, res, gi)))
  {
  }

  lemma PayInsertNext(cfg: Config, sh: Shared, c: CallId, call: Call, ch: Choice)
    requires call.req.PayReq? && call.pc.PayInsert? && PayOutsideTx(cfg, sh, c, call) && ch != Fault
    requires PayInsertStep(cfg, sh, c, call, ch).Some?
    ensures PayInv(cfg, PayInsertStep(cfg, sh, c, call, ch).value.sh, c, PayInsertStep(cfg, sh, c, call, ch).value.call)
  {
    var p := call.pc.p;
    if p.key.Some? && !KeyFree(sh.db, p.key.value) {
      PayInsertTaken(cfg, sh, c, call);
    } else if p.key.Some? {
      PayInserted(cfg, sh, c, call, sh.keys[p.key.value := c]);
    } else {
      PayInserted(cfg, sh, c, call, sh.keys);
    }
  }

  lemma PayInsertOk(cfg: Config, sh: Shared, c: CallId, call: Call, ch: Choice)
    requires SharedInv(cfg, sh) && CallInv(cfg, sh, c, call) && call.req.PayReq? && call.pc.PayInsert?
    requires PayInsertStep(cfg, sh, c, call, ch).Some?
    ensures StepOk(cfg, sh, c, PayInsertStep(cfg, sh, c, call, ch).value)
  {
    var n := PayInsertStep(cfg, sh, c, call, ch).value;
    if ch == Fault {
      FailInTxOk(cfg, sh, c, call);
    } else {
      Relocked(cfg, sh, n.sh, c);
      PayInsertNext(cfg, sh, c, call, ch);
    }
  }

  lemma PayMarkNext(cfg: Config, sh: Shared, c: CallId, call: Call, ch: Choice)
    requires call.req.PayReq? && call.pc.PayMark? && PayInTx(cfg, sh, c, call) && ch != Fault && IdsMatch(sh)
    requires PayMarkStep(cfg, sh, c, call, ch).Some?
    ensures PayInTx(cfg, PayMarkStep(cfg, sh, c, call, ch).value.sh, c, PayMarkStep(cfg, sh, c, call, ch).value.call)
  {
  }

  lemma PayMarkOk(cfg: Config, sh: Shared, c: CallId, call: Call, ch: Choice)
    requires SharedInv(cfg, sh) && CallInv(cfg, sh, c, call) && call.req.PayReq? && call.pc.PayMark?
    requires PayMarkStep(cfg, sh, c, call, ch).Some?
    ensures StepOk(cfg, sh, c, PayMarkStep(cfg, sh, c, call, ch).value)
  {
    var n := PayMarkStep(cfg, sh, c, call, ch).value;
    if ch == Fault {
      FailInTxOk(cfg, sh, c, call);
    } else {
      Unchanged(sh, c);
      PayMarkNext(cfg, sh, c, call, ch);
    }
  }

  lemma PayAuditNext(cfg: Config, sh: Shared, c: CallId, call: Call, ch: Choice)
    requires call.req.PayReq? && call.pc.PayAudit? && PayInTx(cfg, sh, c, call) && ch != Fault && IdsMatch(sh)
    requires PayAuditStep(cfg, sh, c, call, ch).Some?
    ensures PayInTx(cfg, PayAuditStep(cfg, sh, c, call, ch).value.sh, c, PayAuditStep(cfg, sh, c, call, ch).value.call)
  {
  }

  lemma PayAuditOk(cfg: Config, sh: Shared, c: CallId, call: Call, ch: Choice)
    requires SharedInv(cfg, sh) && CallInv(cfg, sh, c, call) && call.req.PayReq? && call.pc.PayAudit?
    requires PayAuditStep(cfg, sh, c, call, ch).Some?
    ensures StepOk(cfg, sh, c, PayAuditStep(cfg, sh, c, call, ch).value)
  {
    var n := PayAuditStep(cfg, sh, c, call, ch).value;
    if ch == Fault {
      FailInTxOk(cfg, sh, c, call);
    } else {
      Drawn(cfg, sh, c, ch.id);
      PayAuditNext(cfg, sh, c, call, ch);
    }
  }

  lemma OnlyRow<V>(m: map<Id, V>, k: Id, v: V)
    requires m.Keys == {k}
    ensures m[k := v] == map[k := v]
  {
  }

  lemma PayFinishNext(cfg: Config, sh: Shared, c: CallId, call: Call, ch: Choice)
    requires call.req.PayReq? && call.pc.PayFinish? && PayInTx(cfg, sh, c, call) && ch != Fault && IdsMatch(sh)
    requires PayFinishStep(cfg, sh, c, call, ch).Some?
    ensures PayInTx(cfg, PayFinishStep(cfg, sh, c, call, ch).value.sh, c,
                    PayFinishStep(cfg, sh, c, call, ch).value.call)
  {
    var PayFinish(p, res, _, _) := call.pc;
    OnlyRow(call.buf.payments, p.id, Charged(p, res));
    assert Charged(p, res) == Charged(p.(status := Pending), res);
  }

  lemma PayFinishOk(cfg: Config, sh: Shared, c: CallId, call: Call, ch: Choice)
    requires SharedInv(cfg, sh) && CallInv(cfg, sh, c, call) && call.req.PayReq? && call.pc.PayFinish?
    requires PayFinishStep(cfg, sh, c, call, ch).Some?
    ensures StepOk(cfg, sh, c, PayFinishStep(cfg, sh, c, call, ch).value)
  {
    var n := PayFinishStep(cfg, sh, c, call, ch).value;
    if ch == Fault {
      FailInTxOk(cfg, sh, c, call);
    } else {
      Unchanged(sh, c);
      PayFinishNext(cfg, sh, c, call, ch);
    }
  }

  /** Inserting a payment row under a fresh id and a free key that the call itself holds keeps the promise. */
  lemma ChargeGuarantee(sh: Shared, sh': Shared, c: CallId, p: Payment, t: Txn, e: Event)
    requires p.id !in sh.db.payments && Owns(sh, c, p.id) && Owns(sh, c, t.id) && KeyHeld(sh, c, p) && e.cid == c
    requires sh' == sh.(log := sh.log + [e], db := Db(sh.db.payments[p.id := p], sh.db.refunds, sh.db.txns[t.id := t]))
    ensures Guarantee(sh, sh', c)
  {
  }

  /** The shared invariant after a commit whose tables the log explains. */
  lemma CommitKeeps(cfg: Config, sh: Shared, db: Db, e: Event)
    requires SharedInv(cfg, sh) && ApplyEvent(cfg, sh.db, e) == Some(db)
    requires IdsMatch(sh.(db := db)) && GatewayMatches(cfg, sh, e)
    requires forall p :: p in sh.db.payments ==> p in db.payments && SameButStatus(sh.db.payments[p], db.payments[p])
    ensures SharedInv(cfg, Record(sh.(db := db), e))
  {
    var sh' := Record(sh.(db := db), e);
    ReplayExtend(cfg, sh.log, e);
    forall i | 0 <= i < |sh'.log|
      ensures GatewayMatches(cfg, sh', sh'.log[i])
    {
      if i < |sh.log| {
        assert GatewayMatches(cfg, sh, sh.log[i]);
      }
    }
  }

  lemma MergeOne<K, V>(m: map<K, V>, k: K, v: V)
    ensures m + map[k := v] == m[k := v]
  {
  }

  lemma ChargeAccepted(cfg: Config, sh: Shared, c: CallId, call: Call)
    requires call.req.PayReq? && call.pc.PayCommit? && PayInTx(cfg, sh, c, call)
    ensures var PayCommit(p, res, gi, tid) := call.pc;
      && var a, db := call.req.pay, sh.db;
      && AtomicCharge(cfg.router, db, a, p.id, tid, p.createdAt, res)
         == Ok((Db(db.payments[p.id := p], db.refunds, db.txns[tid := ChargeRow(a, p, tid, res)]), p))
  {
  }

  /** What a charge writes is what the atomic charge writes. */
  lemma ChargeIsAtomic(cfg: Config, sh: Shared, c: CallId, call: Call)
    requires call.req.PayReq? && call.pc.PayCommit? && PayInTx(cfg, sh, c, call)
    ensures var PayCommit(p, res, gi, tid) := call.pc;
      && Overlay(sh.db, call.buf)
         == Db(sh.db.payments[p.id := p], sh.db.refunds, sh.db.txns[tid := ChargeRow(call.req.pay, p, tid, res)])
      && AtomicCharge(cfg.router, sh.db, call.req.pay, p.id, tid, p.createdAt, res) == Ok((Overlay(sh.db, call.buf), p))
  {
    var PayCommit(p, res, gi, tid) := call.pc;
    MergeOne(sh.db.payments, p.id, p);
    MergeOne(sh.db.txns, tid, ChargeRow(call.req.pay, p, tid, res));
    ChargeAccepted(cfg, sh, c, call);
  }

  /** The committed tables are those of the atomic charge. */
  lemma ChargeCommitted(cfg: Config, sh: Shared, c: CallId, call: Call, e: Event)
    requires SharedInv(cfg, sh) && Basic(sh, call) && call.req.PayReq? && call.pc.PayCommit?
    requires PayInTx(cfg, sh, c, call)
    requires var PayCommit(p, res, gi, tid) := call.pc;
      e == Event(c, call.req, ChargeOp(p.id, tid, p.createdAt, res, gi), Paid(p))
    ensures Committed(cfg, sh, c, Record(sh.(db := Overlay(sh.db, call.buf)), e))
  {
    var PayCommit(p, res, gi, tid) := call.pc;
    var db := Overlay(sh.db, call.buf);
    ChargeIsAtomic(cfg, sh, c, call);
    ChargeGuarantee(sh, Record(sh.(db := db), e), c, p, ChargeRow(call.req.pay, p, tid, res), e);
    assert IdsMatch(sh.(db := db));
    CommitKeeps(cfg, sh, db, e);
  }

  lemma PayCommitOk(cfg: Config, sh: Shared, c: CallId, call: Call, ch: Choice)
    requires SharedInv(cfg, sh) && CallInv(cfg, sh, c, call) && call.req.PayReq? && call.pc.PayCommit?
    requires PayCommitStep(cfg, sh, c, call, ch).Some?
    ensures StepOk(cfg, sh, c, PayCommitStep(cfg, sh, c, call, ch).value)
  {
    var n := PayCommitStep(cfg, sh, c, call, ch).value;
    var PayCommit(p, res, gi, tid) := call.pc;
    var op := ChargeOp(p.id, tid, p.createdAt, res, gi);
    ChargeCommitted(cfg, sh, c, call, Event(c, call.req, op, Paid(p)));
    CommitOk(cfg, sh, c, call, op, Paid(p), ch);
  }

  lemma PayRecoverNext(cfg: Config, sh: Shared, c: CallId, call: Call)
    requires call.req.PayReq? && call.pc.Aborting? && call.pc.error == UniqueViolation && PayOutsideTx(cfg, sh, c, call)
    ensures PayOutsideTx(cfg, Release(sh, c), c, call.(buf := EMPTY_DB, pc := PayRecover))
  {
  }

  lemma PayRollbackOk(cfg: Config, sh: Shared, c: CallId, call: Call, ch: Choice)
    requires SharedInv(cfg, sh) && CallInv(cfg, sh, c, call) && call.req.PayReq? && call.pc.Aborting?
    requires PayRollbackStep(cfg, sh, c, call, ch).Some?
    ensures StepOk(cfg, sh, c, PayRollbackStep(cfg, sh, c, call, ch).value)
  {
    if call.pc.error == UniqueViolation {
      PayRollbackToRecover(cfg, sh, c, call);
    } else {
      EndTxOk(cfg, sh, c, call, Done(Rejected(StoreFailure), call.pc.at));
    }
  }

  lemma PayRollbackToRecover(cfg: Config, sh: Shared, c: CallId, call: Call)
    requires SharedInv(cfg, sh) && Basic(sh, call)
    requires call.req.PayReq? && call.pc.Aborting? && call.pc.error == UniqueViolation && PayOutsideTx(cfg, sh, c, call)
    ensures Trim(call.req.pay.key) != "" && StepOk(cfg, sh, c, EndTx(sh, c, call, PayRecover))
  {
    Released(cfg, sh, c);
    PayRecoverNext(cfg, sh, c, call);
  }

  // ---------- ProcessRefund ----------

  lemma RefundLookupOk(cfg: Config, sh: Shared, c: CallId, call: Call, ch: Choice)
    requires SharedInv(cfg, sh) && CallInv(cfg, sh, c, call) && call.req.RefundReq? && call.pc.RefundLookup?
    requires RefundLookupStep(cfg, sh, c, call, ch).Some?
    ensures StepOk(cfg, sh, c, RefundLookupStep(cfg, sh, c, call, ch).value)
  {
    var n := RefundLookupStep(cfg, sh, c, call, ch).value;
    Unchanged(sh, c);
    if n.call.pc.Done? {
      if n.call.pc.resp == Rejected(StoreFailure) {
        GiveUpOk(cfg, sh, c, call);
      } else {
        AnswerOk(cfg, sh, c, call, n.call.pc.resp);
      }
    }
  }

  lemma RefundReadNext(cfg: Config, sh: Shared, c: CallId, call: Call, ch: Choice)
    requires call.req.RefundReq? && call.pc.RefundRead? && RefundOutsideTx(cfg, sh, c, call)
    requires IdsMatch(sh)
    requires RefundReadStep(cfg, sh, c, call, ch).Some?
    requires RefundReadStep(cfg, sh, c, call, ch).value.call.pc.RefundBegin?
    ensures RefundOutsideTx(cfg, RefundReadStep(cfg, sh, c, call, ch).value.sh, c,
                            RefundReadStep(cfg, sh, c, call, ch).value.call)
  {
  }

  /** The read answers, or the store fails. */
  lemma RefundReadEnds(cfg: Config, sh: Shared, c: CallId, call: Call, ch: Choice)
    requires SharedInv(cfg, sh) && Basic(sh, call) && Idle(sh, c, call) && NoEvent(sh, c)
    requires call.req.RefundReq? && call.pc.RefundRead? && RefundReadStep(cfg, sh, c, call, ch).Some?
    requires RefundReadStep(cfg, sh, c, call, ch).value.call.pc.Done?
    ensures StepOk(cfg, sh, c, RefundReadStep(cfg, sh, c, call, ch).value)
  {
    var n := RefundReadStep(cfg, sh, c, call, ch).value;
    if n.call.pc.resp == Rejected(StoreFailure) {
      GiveUpOk(cfg, sh, c, call);
    } else {
      AnswerOk(cfg, sh, c, call, n.call.pc.resp);
    }
  }

  lemma RefundReadOk(cfg: Config, sh: Shared, c: CallId, call: Call, ch: Choice)
    requires SharedInv(cfg, sh) && CallInv(cfg, sh, c, call) && call.req.RefundReq? && call.pc.RefundRead?
    requires RefundReadStep(cfg, sh, c, call, ch).Some?
    ensures StepOk(cfg, sh, c, RefundReadStep(cfg, sh, c, call, ch).value)
  {
    if RefundReadStep(cfg, sh, c, call, ch).value.call.pc.Done? {
      RefundReadEnds(cfg, sh, c, call, ch);
    } else {
      Drawn(cfg, sh, c, ch.id);
      RefundReadNext(cfg, sh, c, call, ch);
    }
  }

  /** A step that stays inside the transaction. */
  lemma RefundTxOk(cfg: Config, sh: Shared, c: CallId, n: Next)
    requires SharedInv(cfg, n.sh) && Guarantee(sh, n.sh, c) && Basic(n.sh, n.call)
    requires n.call.req.RefundReq? && RefundInTx(cfg, n.sh, c, n.call)
    ensures StepOk(cfg, sh, c, n)
  {
  }

  lemma RefundBeginNext(cfg: Config, sh: Shared, c: CallId, call: Call, ch: Choice)
    requires call.req.RefundReq? && call.pc.RefundBegin? && RefundOutsideTx(cfg, sh, c, call) && ch != Fault
    requires IdsMatch(sh)
    requires RefundBeginStep(cfg, sh, c, call, ch).Some?
    ensures RefundOutsideTx(cfg, RefundBeginStep(cfg, sh, c, call, ch).value.sh, c,
                            RefundBeginStep(cfg, sh, c, call, ch).value.call)
  {
  }

  lemma RefundBeginOk(cfg: Config, sh: Shared, c: CallId, call: Call, ch: Choice)
    requires SharedInv(cfg, sh) && CallInv(cfg, sh, c, call) && call.req.RefundReq? && call.pc.RefundBegin?
    requires RefundBeginStep(cfg, sh, c, call, ch).Some?
    ensures StepOk(cfg, sh, c, RefundBeginStep(cfg, sh, c, call, ch).value)
  {
    var n := RefundBeginStep(cfg, sh, c, call, ch).value;
    if ch == Fault {
      GiveUpOk(cfg, sh, c, call);
    } else {
      Unchanged(sh, c);
      RefundBeginNext(cfg, sh, c, call, ch);
    }
  }

  lemma RejectOk(cfg: Config, sh: Shared, c: CallId, call: Call, e: Error)
    requires SharedInv(cfg, sh) && Basic(sh, call) && NoEvent(sh, c) && call.req.RefundReq? && e != StoreFailure
    requires ReadSpec(cfg, sh.db, call.req, Rejected(e))
    ensures StepOk(cfg, sh, c, RejectInTx(sh, c, call, e))
  {
    Recorded(cfg, sh, c, call.req, Rejected(e));
    var n := RejectInTx(sh, c, call, e);
    assert Answered(n.sh, c, n.call, Rejected(e), |sh.log|);
    assert RefundOutsideTx(cfg, n.sh, c, n.call);
  }

  /** The tables, with the row lock taken. */
  function LockedFor(sh: Shared, c: CallId, p: Id): Shared {
    sh.(locks := sh.locks[p := c])
  }

  lemma RefundLockNext(cfg: Config, sh: Shared, c: CallId, call: Call)
    requires call.req.RefundReq? && call.pc.RefundLock? && RefundOutsideTx(cfg, sh, c, call)
    requires call.req.refund.paymentId in sh.db.payments && Refundable(sh.db.payments[call.req.refund.paymentId].status)
    ensures var p := call.req.refund.paymentId;
      RefundInTx(cfg, LockedFor(sh, c, p), c, call.(pc := RefundFold(call.pc.g, call.pc.r, sh.db.payments[p])))
  {
  }

  /** The row is locked and known to be refundable. */
  lemma RefundLockTaken(cfg: Config, sh: Shared, c: CallId, call: Call)
    requires SharedInv(cfg, sh) && Basic(sh, call)
    requires call.req.RefundReq? && call.pc.RefundLock? && RefundOutsideTx(cfg, sh, c, call)
    requires var p := call.req.refund.paymentId;
      p !in sh.locks && p in sh.db.payments && Refundable(sh.db.payments[p].status)
    ensures var p := call.req.refund.paymentId;
      StepOk(cfg, sh, c, Goto(LockedFor(sh, c, p), call, RefundFold(call.pc.g, call.pc.r, sh.db.payments[p])))
  {
    var p := call.req.refund.paymentId;
    Relocked(cfg, sh, LockedFor(sh, c, p), c);
    RefundLockNext(cfg, sh, c, call);
    RefundTxOk(cfg, sh, c, Goto(LockedFor(sh, c, p), call, RefundFold(call.pc.g, call.pc.r, sh.db.payments[p])));
  }

  /** The locked row can no longer be refunded. */
  lemma RefundLockRefused(cfg: Config, sh: Shared, c: CallId, call: Call)
    requires SharedInv(cfg, sh) && Basic(sh, call) && NoEvent(sh, c) && call.req.RefundReq?
    requires var p := call.req.refund.paymentId;
      p !in sh.locks && p in sh.db.payments && !Refundable(sh.db.payments[p].status)
    ensures StepOk(cfg, sh, c, RejectInTx(LockedFor(sh, c, call.req.refund.paymentId), c, call, RefundNotAllowed))
  {
    var sh' := LockedFor(sh, c, call.req.refund.paymentId);
    Relocked(cfg, sh, sh', c);
    RejectOk(cfg, sh', c, call, RefundNotAllowed);
    GuaranteeTransitive(sh, sh', RejectInTx(sh', c, call, RefundNotAllowed).sh, c);
  }

  lemma RefundLockOk(cfg: Config, sh: Shared, c: CallId, call: Call, ch: Choice)
    requires SharedInv(cfg, sh) && CallInv(cfg, sh, c, call) && call.req.RefundReq? && call.pc.RefundLock?
    requires RefundLockStep(cfg, sh, c, call, ch).Some?
    ensures StepOk(cfg, sh, c, RefundLockStep(cfg, sh, c, call, ch).value)
  {
    if ch == Fault || call.req.refund.paymentId !in sh.db.payments {
      FailInTxOk(cfg, sh, c, call);
    } else if Refundable(sh.db.payments[call.req.refund.paymentId].status) {
      RefundLockTaken(cfg, sh, c, call);
    } else {
      RefundLockRefused(cfg, sh, c, call);
    }
  }

  lemma RefundFoldNext(cfg: Config, sh: Shared, c: CallId, call: Call, ch: Choice)
    requires call.req.RefundReq? && call.pc.RefundFold? && RefundInTx(cfg, sh, c, call)
    requires RefundFoldStep(cfg, sh, c, call, ch).Some?
    ensures var n := RefundFoldStep(cfg, sh, c, call, ch).value;
      && (n.call.pc.RefundCreate? ==> n.sh == sh && RefundInTx(cfg, sh, c, n.call))
      && (n.call.pc.Aborting? && ch != Fault ==>
            && n == RejectInTx(sh, c, call, RefundExceedsRemaining)
            && ReadSpec(cfg, sh.db, call.req, Rejected(RefundExceedsRemaining)))
  {
    assert Overlay(sh.db, call.buf).refunds == sh.db.refunds;
  }

  lemma RefundFoldInTx(cfg: Config, sh: Shared, c: CallId, call: Call, ch: Choice)
    requires SharedInv(cfg, sh) && Basic(sh, call) && NoEvent(sh, c)
    requires call.req.RefundReq? && call.pc.RefundFold? && RefundInTx(cfg, sh, c, call)
    requires RefundFoldStep(cfg, sh, c, call, ch).Some?
    ensures StepOk(cfg, sh, c, RefundFoldStep(cfg, sh, c, call, ch).value)
  {
    var n := RefundFoldStep(cfg, sh, c, call, ch).value;
    RefundFoldNext(cfg, sh, c, call, ch);
    if ch == Fault {
      FailInTxOk(cfg, sh, c, call);
    } else if n.call.pc.RefundCreate? {
      Unchanged(sh, c);
      RefundTxOk(cfg, sh, c, n);
    } else {
      RejectOk(cfg, sh, c, call, RefundExceedsRemaining);
    }
  }

  lemma RefundFoldOk(cfg: Config, sh: Shared, c: CallId, call: Call, ch: Choice)
    requires SharedInv(cfg, sh) && CallInv(cfg, sh, c, call) && call.req.RefundReq? && call.pc.RefundFold?
    requires RefundFoldStep(cfg, sh, c, call, ch).Some?
    ensures StepOk(cfg, sh, c, RefundFoldStep(cfg, sh, c, call, ch).value)
  {
    RefundFoldInTx(cfg, sh, c, call, ch);
  }

  lemma RefundCreateNext(cfg: Config, sh: Shared, c: CallId, call: Call, ch: Choice)
    requires call.req.RefundReq? && call.pc.RefundCreate? && RefundInTx(cfg, sh, c, call) && ch != Fault && IdsMatch(sh)
    requires RefundCreateStep(cfg, sh, c, call, ch).Some?
    ensures RefundInTx(cfg, RefundCreateStep(cfg, sh, c, call, ch).value.sh, c,
                       RefundCreateStep(cfg, sh, c, call, ch).value.call)
  {
  }

  lemma RefundCreateOk(cfg: Config, sh: Shared, c: CallId, call: Call, ch: Choice)
    requires SharedInv(cfg, sh) && CallInv(cfg, sh, c, call) && call.req.RefundReq? && call.pc.RefundCreate?
    requires RefundCreateStep(cfg, sh, c, call, ch).Some?
    ensures StepOk(cfg, sh, c, RefundCreateStep(cfg, sh, c, call, ch).value)
  {
    var n := RefundCreateStep(cfg, sh, c, call, ch).value;
    if ch == Fault {
      FailInTxOk(cfg, sh, c, call);
    } else {
      Unchanged(sh, c);
      RefundCreateNext(cfg, sh, c, call, ch);
      RefundTxOk(cfg, sh, c, n);
    }
  }

  lemma RefundMarkNext(cfg: Config, sh: Shared, c: CallId, call: Call, ch: Choice)
    requires call.req.RefundReq? && call.pc.RefundMark? && RefundInTx(cfg, sh, c, call) && ch != Fault && IdsMatch(sh)
    requires RefundMarkStep(cfg, sh, c, call, ch).Some?
    ensures RefundInTx(cfg, RefundMarkStep(cfg, sh, c, call, ch).value.sh, c,
                       RefundMarkStep(cfg, sh, c, call, ch).value.call)
  {
  }

  lemma RefundMarkOk(cfg: Config, sh: Shared, c: CallId, call: Call, ch: Choice)
    requires SharedInv(cfg, sh) && CallInv(cfg, sh, c, call) && call.req.RefundReq? && call.pc.RefundMark?
    requires RefundMarkStep(cfg, sh, c, call, ch).Some?
    ensures StepOk(cfg, sh, c, RefundMarkStep(cfg, sh, c, call, ch).value)
  {
    var n := RefundMarkStep(cfg, sh, c, call, ch).value;
    if ch == Fault {
      FailInTxOk(cfg, sh, c, call);
    } else {
      Unchanged(sh, c);
      RefundMarkNext(cfg, sh, c, call, ch);
      RefundTxOk(cfg, sh, c, n);
    }
  }

  lemma RefundProcessNext(cfg: Config, sh: Shared, c: CallId, call: Call, ch: Choice)
    requires call.req.RefundReq? && call.pc.RefundProcess? && RefundInTx(cfg, sh, c, call) && ch != Fault
    requires IdsMatch(sh)
    requires RefundProcessStep(cfg, sh, c, call, ch).Some?
    ensures RefundInTx(cfg, RefundProcessStep(cfg, sh, c, call, ch).value.sh, c,
                       RefundProcessStep(cfg, sh, c, call, ch).value.call)
  {
  }

  lemma RefundProcessOk(cfg: Config, sh: Shared, c: CallId, call: Call, ch: Choice)
    requires SharedInv(cfg, sh) && CallInv(cfg, sh, c, call) && call.req.RefundReq? && call.pc.RefundProcess?
    requires RefundProcessStep(cfg, sh, c, call, ch).Some?
    ensures StepOk(cfg, sh, c, RefundProcessStep(cfg, sh, c, call, ch).value)
  {
    var n := RefundProcessStep(cfg, sh, c, call, ch).value;
    if ch == Fault {
      FailInTxOk(cfg, sh, c, call);
    } else {
      Unchanged(sh, c);
      RefundProcessNext(cfg, sh, c, call, ch);
      RefundTxOk(cfg, sh, c, n);
    }
  }

  lemma RefundGatewayNext(cfg: Config, sh: Shared, c: CallId, call: Call, ch: Choice)
    requires call.req.RefundReq? && call.pc.RefundGateway? && RefundInTx(cfg, sh, c, call) && ch != Fault
    requires IdsMatch(sh)
    requires RefundGatewayStep(cfg, sh, c, call, ch).Some?
    ensures RefundInTx(cfg, RefundGatewayStep(cfg, sh, c, call, ch).value.sh, c,
                       RefundGatewayStep(cfg, sh, c, call, ch).value.call)
  {
  }

  lemma RefundGatewayOk(cfg: Config, sh: Shared, c: CallId, call: Call, ch: Choice)
    requires SharedInv(cfg, sh) && CallInv(cfg, sh, c, call) && call.req.RefundReq? && call.pc.RefundGateway?
    requires RefundGatewayStep(cfg, sh, c, call, ch).Some?
    ensures StepOk(cfg, sh, c, RefundGatewayStep(cfg, sh, c, call, ch).value)
  {
    var n := RefundGatewayStep(cfg, sh, c, call, ch).value;
    Called(cfg, sh, c, n.sh.gateway[|sh.gateway|]);
    RefundGatewayNext(cfg, sh, c, call, ch);
  }

  lemma RefundAuditNext(cfg: Config, sh: Shared, c: CallId, call: Call, ch: Choice)
    requires call.req.RefundReq? && call.pc.RefundAudit? && RefundInTx(cfg, sh, c, call) && ch != Fault && IdsMatch(sh)
    requires RefundAuditStep(cfg, sh, c, call, ch).Some?
    ensures RefundInTx(cfg, RefundAuditStep(cfg, sh, c, call, ch).value.sh, c,
                       RefundAuditStep(cfg, sh, c, call, ch).value.call)
  {
  }

  lemma RefundAuditOk(cfg: Config, sh: Shared, c: CallId, call: Call, ch: Choice)
    requires SharedInv(cfg, sh) && CallInv(cfg, sh, c, call) && call.req.RefundReq? && call.pc.RefundAudit?
    requires RefundAuditStep(cfg, sh, c, call, ch).Some?
    ensures StepOk(cfg, sh, c, RefundAuditStep(cfg, sh, c, call, ch).value)
  {
    var n := RefundAuditStep(cfg, sh, c, call, ch).value;
    if ch == Fault {
      FailInTxOk(cfg, sh, c, call);
    } else {
      Drawn(cfg, sh, c, ch.id);
      RefundAuditNext(cfg, sh, c, call, ch);
      RefundTxOk(cfg, sh, c, n);
    }
  }

  lemma RefundFinishBuf(cfg: Config, sh: Shared, c: CallId, call: Call)
    requires call.req.RefundReq? && call.pc.RefundFinish? && RefundInTx(cfg, sh, c, call) && IdsMatch(sh)
    ensures var RefundFinish(r, locked, remaining, res, gi, tid) := call.pc;
      var buf := call.buf.(payments := call.buf.payments[locked.id :=
                             locked.(status := StatusAfter(call.req.refund.amount, remaining, res))]);
      SettledBuf(sh, call.req.refund, Settled(r, res), res, tid, buf.(refunds := map[r.id := Settled(r, res)]))
  {
  }

  lemma RefundFinishNext(cfg: Config, sh: Shared, c: CallId, call: Call, ch: Choice)
    requires call.req.RefundReq? && call.pc.RefundFinish? && RefundInTx(cfg, sh, c, call) && ch != Fault && IdsMatch(sh)
    requires RefundFinishStep(cfg, sh, c, call, ch).Some?
    ensures RefundInTx(cfg, RefundFinishStep(cfg, sh, c, call, ch).value.sh, c,
                       RefundFinishStep(cfg, sh, c, call, ch).value.call)
  {
    var n := RefundFinishStep(cfg, sh, c, call, ch).value;
    RefundFinishBuf(cfg, sh, c, call);
    assert SettledInv(cfg, sh, c, call.req.refund, n.call.pc.r, call.pc.res, call.pc.gi, call.pc.tid);
  }

  lemma RefundFinishInTx(cfg: Config, sh: Shared, c: CallId, call: Call, ch: Choice)
    requires SharedInv(cfg, sh) && Basic(sh, call) && NoEvent(sh, c)
    requires call.req.RefundReq? && call.pc.RefundFinish? && RefundInTx(cfg, sh, c, call)
    requires RefundFinishStep(cfg, sh, c, call, ch).Some?
    ensures StepOk(cfg, sh, c, RefundFinishStep(cfg, sh, c, call, ch).value)
  {
    if ch == Fault {
      FailInTxOk(cfg, sh, c, call);
    } else {
      Unchanged(sh, c);
      RefundFinishNext(cfg, sh, c, call, ch);
      RefundTxOk(cfg, sh, c, RefundFinishStep(cfg, sh, c, call, ch).value);
    }
  }

  lemma RefundFinishOk(cfg: Config, sh: Shared, c: CallId, call: Call, ch: Choice)
    requires SharedInv(cfg, sh) && CallInv(cfg, sh, c, call) && call.req.RefundReq? && call.pc.RefundFinish?
    requires RefundFinishStep(cfg, sh, c, call, ch).Some?
    ensures StepOk(cfg, sh, c, RefundFinishStep(cfg, sh, c, call, ch).value)
  {
    RefundFinishInTx(cfg, sh, c, call, ch);
  }

  lemma RefundStoreNext(cfg: Config, sh: Shared, c: CallId, call: Call, ch: Choice)
    requires call.req.RefundReq? && call.pc.RefundStore? && RefundInTx(cfg, sh, c, call) && ch != Fault && IdsMatch(sh)
    requires RefundStoreStep(cfg, sh, c, call, ch).Some?
    ensures RefundInTx(cfg, RefundStoreStep(cfg, sh, c, call, ch).value.sh, c,
                       RefundStoreStep(cfg, sh, c, call, ch).value.call)
  {
    OnlyRow(call.buf.refunds, call.pc.r.id, call.pc.r);
  }

  lemma RefundStoreInTx(cfg: Config, sh: Shared, c: CallId, call: Call, ch: Choice)
    requires SharedInv(cfg, sh) && Basic(sh, call) && NoEvent(sh, c)
    requires call.req.RefundReq? && call.pc.RefundStore? && RefundInTx(cfg, sh, c, call)
    requires RefundStoreStep(cfg, sh, c, call, ch).Some?
    ensures StepOk(cfg, sh, c, RefundStoreStep(cfg, sh, c, call, ch).value)
  {
    if ch == Fault {
      FailInTxOk(cfg, sh, c, call);
    } else {
      Unchanged(sh, c);
      RefundStoreNext(cfg, sh, c, call, ch);
      RefundTxOk(cfg, sh, c, RefundStoreStep(cfg, sh, c, call, ch).value);
    }
  }

  lemma RefundStoreOk(cfg: Config, sh: Shared, c: CallId, call: Call, ch: Choice)
    requires SharedInv(cfg, sh) && CallInv(cfg, sh, c, call) && call.req.RefundReq? && call.pc.RefundStore?
    requires RefundStoreStep(cfg, sh, c, call, ch).Some?
    ensures StepOk(cfg, sh, c, RefundStoreStep(cfg, sh, c, call, ch).value)
  {
    RefundStoreInTx(cfg, sh, c, call, ch);
  }

  /** Committing a refund on a row the call has locked keeps the promise: only that row and its total move. */
  lemma RefundGuarantee(sh: Shared, sh': Shared, c: CallId, p: Id, st: PaymentStatus, r: Refund, t: Txn, e: Event)
    requires p in sh.db.payments && p in sh.locks && sh.locks[p] == c && r.paymentId == p && r.id !in sh.db.refunds
    requires Owns(sh, c, r.id) && Owns(sh, c, t.id) && e.cid == c
    requires sh' == sh.(log := sh.log + [e],
                        db := Db(sh.db.payments[p := sh.db.payments[p].(status := st)], sh.db.refunds[r.id := r],
                                 sh.db.txns[t.id := t]))
    ensures Guarantee(sh, sh', c)
  {
    forall q
      ensures q != p ==> Total(sh'.db.refunds, q) == Total(sh.db.refunds, q)
    {
      SumInsert(sh.db.refunds, r.id, r, CompletedOf(q));
    }
  }

  /** The tables a refund commits. */
  ghost function RefundedDb(db: Db, a: RefundArgs, r: Refund, res: GatewayResult, tid: Id): Db
    requires a.paymentId in db.payments
  {
    var row := db.payments[a.paymentId];
    var st := StatusAfter(a.amount, row.amount - Total(db.refunds, a.paymentId), res);
    Db(db.payments[a.paymentId := row.(status := st)],
       db.refunds[r.id := r], db.txns[tid := RefundRow(a, r.id, tid, row.currency, res)])
  }

  lemma SettledOverlay(sh: Shared, a: RefundArgs, r: Refund, res: GatewayResult, tid: Id, buf: Db)
    requires SettledBuf(sh, a, r, res, tid, buf) && r.currency == sh.db.payments[a.paymentId].currency
    ensures Overlay(sh.db, buf) == RefundedDb(sh.db, a, r, res, tid)
  {
    var db := RefundedDb(sh.db, a, r, res, tid);
    MergeOne(sh.db.payments, a.paymentId, db.payments[a.paymentId]);
    MergeOne(sh.db.refunds, r.id, r);
    MergeOne(sh.db.txns, tid, db.txns[tid]);
  }

  lemma RefundOverlay(cfg: Config, sh: Shared, c: CallId, call: Call)
    requires call.req.RefundReq? && call.pc.RefundCommit? && RefundInTx(cfg, sh, c, call)
    ensures var RefundCommit(r, res, gi, tid) := call.pc;
      Overlay(sh.db, call.buf) == RefundedDb(sh.db, call.req.refund, r, res, tid)
  {
    var RefundCommit(r, res, gi, tid) := call.pc;
    SettledOverlay(sh, call.req.refund, r, res, tid, call.buf);
  }

  /** What a refund writes is what the atomic refund writes. */
  lemma RefundIsAtomic(router: Router, db: Db, a: RefundArgs, r: Refund, res: GatewayResult, tid: Id)
    requires a.paymentId in db.payments && r.id !in db.refunds && tid !in db.txns
    requires Refundable(db.payments[a.paymentId].status) && GetGateway(router, db.payments[a.paymentId].gateway).Ok?
    requires a.amount <= db.payments[a.paymentId].amount - Total(db.refunds, a.paymentId)
    requires r == Settled(NewRefund(a, r.id, r.createdAt, db.payments[a.paymentId].currency), res)
    ensures AtomicRefund(router, db, a, r.id, tid, r.createdAt, res) == Ok((RefundedDb(db, a, r, res, tid), r))
  {
    assert RefundCheck(router, db, a).Ok?;
  }

  lemma RefundIdsMatch(sh: Shared, c: CallId, a: RefundArgs, r: Refund, res: GatewayResult, tid: Id)
    requires IdsMatch(sh) && a.paymentId in sh.db.payments && Owns(sh, c, r.id) && Owns(sh, c, tid)
    ensures IdsMatch(sh.(db := RefundedDb(sh.db, a, r, res, tid)))
  {
  }

  /** The committed tables are those of the atomic refund. */
  lemma RefundCommitted(cfg: Config, sh: Shared, c: CallId, call: Call, e: Event)
    requires SharedInv(cfg, sh) && Basic(sh, call) && call.req.RefundReq? && call.pc.RefundCommit?
    requires RefundInTx(cfg, sh, c, call)
    requires var RefundCommit(r, res, gi, tid) := call.pc;
      e == Event(c, call.req, RefundOp(r.id, tid, r.createdAt, res, gi), RefundMade(r))
    ensures Committed(cfg, sh, c, Record(sh.(db := Overlay(sh.db, call.buf)), e))
  {
    var a := call.req.refund;
    var RefundCommit(r, res, gi, tid) := call.pc;
    RefundOverlay(cfg, sh, c, call);
    var db := RefundedDb(sh.db, a, r, res, tid);
    RefundIsAtomic(cfg.router, sh.db, a, r, res, tid);
    RefundGuarantee(sh, Record(sh.(db := db), e), c, a.paymentId, db.payments[a.paymentId].status, r, db.txns[tid], e);
    RefundIdsMatch(sh, c, a, r, res, tid);
    CommitKeeps(cfg, sh, db, e);
  }

  lemma RefundCommitOk(cfg: Config, sh: Shared, c: CallId, call: Call, ch: Choice)
    requires SharedInv(cfg, sh) && CallInv(cfg, sh, c, call) && call.req.RefundReq? && call.pc.RefundCommit?
    requires RefundCommitStep(cfg, sh, c, call, ch).Some?
    ensures StepOk(cfg, sh, c, RefundCommitStep(cfg, sh, c, call, ch).value)
  {
    var n := RefundCommitStep(cfg, sh, c, call, ch).value;
    var RefundCommit(r, res, gi, tid) := call.pc;
    var op := RefundOp(r.id, tid, r.createdAt, res, gi);
    RefundCommitted(cfg, sh, c, call, Event(c, call.req, op, RefundMade(r)));
    CommitOk(cfg, sh, c, call, op, RefundMade(r), ch);
  }

  lemma RefundRollbackOk(cfg: Config, sh: Shared, c: CallId, call: Call, ch: Choice)
    requires SharedInv(cfg, sh) && CallInv(cfg, sh, c, call) && call.req.RefundReq? && call.pc.Aborting?
    requires RefundRollbackStep(cfg, sh, c, call, ch).Some?
    ensures StepOk(cfg, sh, c, RefundRollbackStep(cfg, sh, c, call, ch).value)
  {
    var n := RefundRollbackStep(cfg, sh, c, call, ch).value;
    if call.pc.error == StoreFailure {
      EndTxOk(cfg, sh, c, call, n.call.pc);
    } else {
      RollbackRejected(cfg, sh, c, call, call.pc.error, call.pc.at);
    }
  }
}
