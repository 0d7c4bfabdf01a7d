/** What holds when refund calls of one correlation id do not overlap: at most one refund carries it. */
module SerialRefunds {
  import opened Base
  import opened Text
  import opened Routing
  import opened Domain
  import opened Ledger
  import opened Protocol
  import opened Refinement
  import opened Runs
  import opened Traces
  import opened Serial

  predicate IdTrimmed(corr: string) {
    NullString(corr).Some? ==> Trimmed(corr)
  }

  ghost predicate CorrelationFree(db: Db, corr: string) {
    forall r :: r in db.refunds ==> db.refunds[r].correlationId != Some(corr)
  }

  /** The call looked for refunds of its trimmed correlation id, which is not blank, and is still under way. */
  predicate PastLookup(call: Call) {
    && call.req.RefundReq? && Trimmed(call.req.refund.correlationId) && call.req.refund.correlationId != ""
    && !call.Finished() && !call.pc.RefundLookup?
  }

  /** Active refund calls that share a correlation id are one call. */
  ghost predicate RefundSerial(s: State) {
    forall c, d :: c in s.calls && d in s.calls && c != d && s.calls[c].req.RefundReq? ==>
      NullString(s.calls[c].req.refund.correlationId).Some? && !s.calls[c].Finished() ==>
        !ActiveRefund(s.calls[d], s.calls[c].req.refund.correlationId)
  }

  ghost predicate CorrelationInv(s: State) {
    && RefundSerial(s)
    && (forall c :: c in s.calls && PastLookup(s.calls[c]) ==>
          CorrelationFree(s.sh.db, s.calls[c].req.refund.correlationId))
  }

  /** A refund call gets past the lookup of its trimmed correlation id only when no refund carries it. */
  lemma LookupMisses(cfg: Config, sh: Shared, c: CallId, call: Call, ch: Choice)
    requires call.req.RefundReq? && call.pc.RefundLookup?
    requires RefundLookupStep(cfg, sh, c, call, ch).Some?
    requires PastLookup(RefundLookupStep(cfg, sh, c, call, ch).value.call)
    ensures var n := RefundLookupStep(cfg, sh, c, call, ch).value;
      SameRows(sh, n.sh) && CorrelationFree(sh.db, n.call.req.refund.correlationId)
  {
    TrimmedIffFixed(call.req.refund.correlationId);
  }

  lemma CommitFinishes(cfg: Config, sh: Shared, c: CallId, call: Call, ch: Choice)
    requires call.req.RefundReq? && call.pc.RefundCommit? && RefundCommitStep(cfg, sh, c, call, ch).Some?
    ensures RefundCommitStep(cfg, sh, c, call, ch).value.call.Finished()
  {
  }

  /** The tables after a step of a refund call, and what that call then knows. */
  lemma RefundActKeeps(cfg: Config, sh: Shared, c: CallId, call: Call, ch: Choice)
    requires CallInv(cfg, sh, c, call) && call.req.RefundReq? && !call.Finished()
    requires RefundStep(cfg, sh, c, call, ch).Some?
    requires PastLookup(call) ==> CorrelationFree(sh.db, call.req.refund.correlationId)
    ensures var n := RefundStep(cfg, sh, c, call, ch).value;
      && (n.sh.db.refunds == sh.db.refunds || AddsRefund(sh, call, n.sh))
      && (PastLookup(n.call) && n.call.req == call.req ==> CorrelationFree(n.sh.db, call.req.refund.correlationId))
  {
    if call.pc.RefundCommit? {
      RefundCommitChanges(cfg, sh, c, call, ch);
      CommitFinishes(cfg, sh, c, call, ch);
    } else {
      RefundReads(cfg, sh, c, call, ch);
      if call.pc.RefundLookup? && PastLookup(RefundStep(cfg, sh, c, call, ch).value.call) {
        LookupMisses(cfg, sh, c, call, ch);
      }
    }
  }

  /** Steps of other calls leave the refunds alone. */
  lemma OtherActKeeps(cfg: Config, sh: Shared, c: CallId, call: Call, ch: Choice)
    requires CallInv(cfg, sh, c, call) && Step(cfg, sh, c, call, ch).Some?
    requires !call.req.RefundReq? || ch == Crash
    ensures Step(cfg, sh, c, call, ch).value.sh.db.refunds == sh.db.refunds
  {
    if ch != Crash && call.req.PayReq? {
      PayChanges(cfg, sh, c, call, ch);
    }
  }

  lemma StepCorrelations(cfg: Config, sh: Shared, c: CallId, call: Call, ch: Choice)
    requires CallInv(cfg, sh, c, call) && Step(cfg, sh, c, call, ch).Some?
    requires PastLookup(call) ==> CorrelationFree(sh.db, call.req.refund.correlationId)
    ensures var n := Step(cfg, sh, c, call, ch).value;
      && n.call.req == call.req
      && (n.sh.db.refunds == sh.db.refunds || AddsRefund(sh, call, n.sh))
      && (PastLookup(n.call) ==> CorrelationFree(n.sh.db, n.call.req.refund.correlationId))
  {
    StepKeepsRequest(cfg, sh, c, call, ch);
    if call.req.RefundReq? && ch != Crash {
      RefundActKeeps(cfg, sh, c, call, ch);
    } else {
      OtherActKeeps(cfg, sh, c, call, ch);
    }
  }

  lemma CorrelationActKeeps(cfg: Config, s: State, c: CallId, ch: Choice)
    requires StateInv(cfg, s) && CorrelationInv(s)
    requires c in s.calls && Step(cfg, s.sh, c, s.calls[c], ch).Some?
    ensures var n := Step(cfg, s.sh, c, s.calls[c], ch).value;
      CorrelationInv(State(n.sh, s.calls[c := n.call]))
  {
    StepCorrelations(cfg, s.sh, c, s.calls[c], ch);
    CorrelationParts(s, c, Step(cfg, s.sh, c, s.calls[c], ch).value);
  }

  /** A refund that is added carries an id that no other call past its lookup has. */
  lemma CorrelationParts(s: State, c: CallId, n: Next)
    requires CorrelationInv(s) && c in s.calls && n.call.req == s.calls[c].req && !s.calls[c].Finished()
    requires n.sh.db.refunds == s.sh.db.refunds || AddsRefund(s.sh, s.calls[c], n.sh)
    requires PastLookup(n.call) ==> CorrelationFree(n.sh.db, n.call.req.refund.correlationId)
    ensures CorrelationInv(State(n.sh, s.calls[c := n.call]))
  {
    forall d | d in s.calls && d != c && PastLookup(s.calls[d])
      ensures CorrelationFree(n.sh.db, s.calls[d].req.refund.correlationId)
    {
      assert CorrelationFree(s.sh.db, s.calls[d].req.refund.correlationId);
      if AddsRefund(s.sh, s.calls[c], n.sh) {
        TrimmedIffFixed(s.calls[d].req.refund.correlationId);
        assert !ActiveRefund(s.calls[c], s.calls[d].req.refund.correlationId);
      }
    }
    SerialStays(s, c, n);
  }

  lemma SerialStays(s: State, c: CallId, n: Next)
    requires RefundSerial(s) && c in s.calls && n.call.req == s.calls[c].req && !s.calls[c].Finished()
    ensures RefundSerial(State(n.sh, s.calls[c := n.call]))
  {
  }

  lemma CorrelationStarts(cfg: Config, s: State, c: CallId, req: Request)
    requires cfg.serialRefund && CorrelationInv(s) && CanStart(cfg, s, c, req)
    ensures CorrelationInv(s.(calls := s.calls[c := NewCall(s, req)]))
  {
    var call := NewCall(s, req);
    forall d | d in s.calls && s.calls[d].req.RefundReq? && !s.calls[d].Finished()
      ensures NullString(s.calls[d].req.refund.correlationId).Some? ==>
                !ActiveRefund(call, s.calls[d].req.refund.correlationId)
    {
      if req.RefundReq? {
        assert NullString(req.refund.correlationId).Some? ==> !ActiveRefund(s.calls[d], req.refund.correlationId);
      }
    }
  }

  lemma {:induction false} CorrelationRun(cfg: Config, ls: seq<Label>, s: State)
    requires cfg.serialRefund && Reaches(cfg, ls, s)
    ensures CorrelationInv(s)
    decreases |ls|
  {
    if ls == [] {
      assert s == INIT;
    } else {
      var m := |ls| - 1;
      var before := Run(cfg, INIT, ls[..m]).value;
      CorrelationRun(cfg, ls[..m], before);
      RunKeeps(cfg, ls[..m], before);
      match ls[m]
      case Start(c, req) => CorrelationStarts(cfg, before, c, req);
      case Act(c, ch) => CorrelationActKeeps(cfg, before, c, ch);
    }
  }

  // ---------- The check holds where the refund takes effect ----------

  /** A refund takes effect only while its correlation id is not found. */
  predicate RefundPermitted(db: Db, e: Event) {
    e.op.RefundOp? && e.req.RefundReq? ==> NotYetRefunded(db, e.req.refund)
  }

  /** Texts that are not trimmed are never stored, so a lookup for one finds nothing. */
  lemma NotFound(db: Db, a: RefundArgs)
    requires WellFormed(db)
    requires Trimmed(a.correlationId) && a.correlationId != "" ==> CorrelationFree(db, a.correlationId)
    ensures NotYetRefunded(db, a)
  {
    TrimmedIffFixed(a.correlationId);
    forall r | r in db.refunds
      ensures Trim(a.correlationId) != "" ==> db.refunds[r].correlationId != Some(a.correlationId)
    {
      assert GoodRefund(db.refunds[r], r);
    }
  }

  lemma NotFoundAtCommit(cfg: Config, sh: Shared, call: Call)
    requires Replay(cfg, sh.log) == Some(sh.db) && call.req.RefundReq? && call.pc.RefundCommit?
    requires PastLookup(call) ==> CorrelationFree(sh.db, call.req.refund.correlationId)
    ensures NotYetRefunded(sh.db, call.req.refund)
  {
    ReplayWellFormed(cfg, sh.log);
    NotFound(sh.db, call.req.refund);
  }

  /** An event that a step records is permitted: only the commit of a refund records a refund. */
  lemma PermittedRefundEvent(sh: Shared, c: CallId, call: Call, ch: Choice, sh': Shared)
    requires Logs(c, call, ch, sh, sh') && sh'.log != sh.log
    requires call.req.RefundReq? && call.pc.RefundCommit? ==> NotYetRefunded(sh.db, call.req.refund)
    ensures |sh'.log| == |sh.log| + 1 && sh'.log == sh.log + [sh'.log[|sh.log|]]
    ensures RefundPermitted(sh.db, sh'.log[|sh.log|])
  {
  }

  lemma PermittedRefundStep(cfg: Config, s: State, c: CallId, ch: Choice)
    requires StateInv(cfg, s) && CorrelationInv(s) && c in s.calls && Step(cfg, s.sh, c, s.calls[c], ch).Some?
    requires EachEvent(cfg, s.sh.log, RefundPermitted)
    ensures EachEvent(cfg, Step(cfg, s.sh, c, s.calls[c], ch).value.sh.log, RefundPermitted)
  {
    var n := Step(cfg, s.sh, c, s.calls[c], ch).value;
    StepRecords(cfg, s.sh, c, s.calls[c], ch);
    if s.calls[c].req.RefundReq? && s.calls[c].pc.RefundCommit? {
      NotFoundAtCommit(cfg, s.sh, s.calls[c]);
    }
    if n.sh.log != s.sh.log {
      PermittedRefundEvent(s.sh, c, s.calls[c], ch, n.sh);
      EachExtends(cfg, s.sh.log, n.sh.log[|s.sh.log|], RefundPermitted);
    }
  }

  lemma {:induction false} PermittedRefundRun(cfg: Config, ls: seq<Label>, s: State)
    requires cfg.serialRefund && Reaches(cfg, ls, s)
    ensures EachEvent(cfg, s.sh.log, RefundPermitted)
    decreases |ls|
  {
    if ls == [] {
      assert s == INIT;
    } else {
      var m := |ls| - 1;
      var before := Run(cfg, INIT, ls[..m]).value;
      PermittedRefundRun(cfg, ls[..m], before);
      RunKeeps(cfg, ls[..m], before);
      CorrelationRun(cfg, ls[..m], before);
      if ls[m].Act? {
        PermittedRefundStep(cfg, before, ls[m].c, ls[m].ch);
      }
    }
  }

  /**
    When refund calls of one correlation id do not overlap, every refund takes effect at a moment when ProcessRefund's
    own checks, with the lookup by correlation id, would let it pass: in the serial order it is the whole procedure.
  */
  lemma RefundsArePermitted(cfg: Config, ls: seq<Label>, s: State, i: nat)
    requires cfg.serialRefund && Reaches(cfg, ls, s) && i < |s.sh.log| && s.sh.log[i].op.RefundOp?
    ensures s.sh.log[i].req.RefundReq? && Replay(cfg, s.sh.log[..i]).Some?
    ensures NotYetRefunded(Replay(cfg, s.sh.log[..i]).value, s.sh.log[i].req.refund)
    ensures RefundCheck(cfg.router, Replay(cfg, s.sh.log[..i]).value, s.sh.log[i].req.refund).Ok?
  {
    RunKeeps(cfg, ls, s);
    PermittedRefundRun(cfg, ls, s);
    ReplayAt(cfg, s.sh.log, i);
  }

  // ---------- One refund per correlation id ----------

  predicate TrimmedRefund(db: Db, e: Event) {
    e.req.RefundReq? ==> IdTrimmed(e.req.refund.correlationId)
  }

  ghost predicate TrimmedInv(cfg: Config, s: State) {
    && EachEvent(cfg, s.sh.log, TrimmedRefund)
    && (forall c :: c in s.calls && s.calls[c].req.RefundReq? ==> IdTrimmed(s.calls[c].req.refund.correlationId))
  }

  lemma TrimmedStep(cfg: Config, s: State, c: CallId, ch: Choice)
    requires StateInv(cfg, s) && TrimmedInv(cfg, s) && c in s.calls && Step(cfg, s.sh, c, s.calls[c], ch).Some?
    ensures var n := Step(cfg, s.sh, c, s.calls[c], ch).value;
      TrimmedInv(cfg, State(n.sh, s.calls[c := n.call]))
  {
    var n := Step(cfg, s.sh, c, s.calls[c], ch).value;
    StepRecords(cfg, s.sh, c, s.calls[c], ch);
    StepKeepsRequest(cfg, s.sh, c, s.calls[c], ch);
    assert Logs(c, s.calls[c], ch, s.sh, n.sh);
    if n.sh.log != s.sh.log {
      EachExtends(cfg, s.sh.log, n.sh.log[|s.sh.log|], TrimmedRefund);
    }
  }

  lemma {:induction false} TrimmedRun(cfg: Config, ls: seq<Label>, s: State)
    requires cfg.trimmedIds && Reaches(cfg, ls, s)
    ensures TrimmedInv(cfg, s)
    decreases |ls|
  {
    if ls == [] {
      assert s == INIT;
    } else {
      var m := |ls| - 1;
      var before := Run(cfg, INIT, ls[..m]).value;
      TrimmedRun(cfg, ls[..m], before);
      RunKeeps(cfg, ls[..m], before);
      if ls[m].Act? {
        TrimmedStep(cfg, before, ls[m].c, ls[m].ch);
      }
    }
  }

  /** A refund made only after its trimmed correlation id was not found keeps correlation ids unique. */
  lemma RefundKeepsUnique(router: Router, db: Db, a: RefundArgs, rid: Id, tid: Id, now: nat, res: GatewayResult,
                          db': Db, r: Refund)
    requires CorrelationsUnique(db) && IdTrimmed(a.correlationId) && NotYetRefunded(db, a)
    requires AtomicRefund(router, db, a, rid, tid, now, res) == Ok((db', r))
    ensures CorrelationsUnique(db')
  {
    TrimmedIffFixed(a.correlationId);
    assert r.correlationId == NullString(a.correlationId);
    assert db'.refunds == db.refunds[rid := r];
  }

  lemma EventKeepsUnique(cfg: Config, db: Db, e: Event)
    requires CorrelationsUnique(db) && ApplyEvent(cfg, db, e).Some? && RefundPermitted(db, e) && TrimmedRefund(db, e)
    ensures CorrelationsUnique(ApplyEvent(cfg, db, e).value)
  {
    match e.op
    case ChargeOp(_, _, _, _, _) =>
    case RefundOp(rid, tid, now, res, _) =>
      var db' := ApplyEvent(cfg, db, e).value;
      RefundKeepsUnique(cfg.router, db, e.req.refund, rid, tid, now, res, db', e.resp.refund);
    case StatusOp =>
    case ReadOp =>
  }

  lemma {:induction false} PermittedIsUnique(cfg: Config, log: seq<Event>)
    requires Replay(cfg, log).Some? && EachEvent(cfg, log, RefundPermitted) && EachEvent(cfg, log, TrimmedRefund)
    ensures CorrelationsUnique(Replay(cfg, log).value)
  {
    if log == [] {
    } else {
      var n := |log| - 1;
      assert forall i :: 0 <= i < n ==> log[..n][..i] == log[..i];
      PermittedIsUnique(cfg, log[..n]);
      EventKeepsUnique(cfg, Replay(cfg, log[..n]).value, log[n]);
    }
  }

  /**
    When correlation ids are trimmed and refund calls of one id do not overlap, calls of different ids overlapping
    freely, no two refunds share an id, across all payments and whatever statuses are written from outside.
  */
  lemma OneRefundPerCorrelation(cfg: Config, ls: seq<Label>, s: State)
    requires cfg.serialRefund && cfg.trimmedIds && Reaches(cfg, ls, s)
    ensures CorrelationsUnique(s.sh.db)
  {
    RunKeeps(cfg, ls, s);
    PermittedRefundRun(cfg, ls, s);
    TrimmedRun(cfg, ls, s);
    PermittedIsUnique(cfg, s.sh.log);
  }
}
