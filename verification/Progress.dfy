/** No deadlock, and no run of finitely many calls that goes on for ever. */
module Progress {
  import opened Base
  import opened Text
  import opened Sums
  import opened Domain
  import opened Lookups
  import opened Protocol
  import opened Refinement
  import opened Runs
  import opened Traces

  // ---------- Waiting ----------

  /** The call waits for a row lock, or for the transaction holding its key to end. */
  predicate Waiting(sh: Shared, call: Call) {
    || (call.pc.RefundLock? && call.req.RefundReq? && call.req.refund.paymentId in sh.locks)
    || (call.pc.PayInsert? && call.pc.p.key.Some? && call.pc.p.key.value in sh.keys && FitsNumeric(call.pc.p.amount))
    || (call.pc.StatusWrite? && call.req.StatusReq? && call.req.paymentId in sh.locks)
  }

  /**
    Not a crash, and not a failure of the store, other than its refusal of an amount that NUMERIC(19,4) cannot hold.
  */
  predicate Smooth(call: Call, ch: Choice) {
    ch != Crash && ch != Lost && (ch == Fault ==> call.pc.PayInsert? && !FitsNumeric(call.pc.p.amount))
  }

  ghost predicate CanProceed(cfg: Config, sh: Shared, c: CallId, call: Call) {
    exists ch :: Smooth(call, ch) && Step(cfg, sh, c, call, ch).Some?
  }

  /** A waiting call holds neither a lock nor a key. */
  lemma WaiterHoldsNothing(cfg: Config, ls: seq<Label>, s: State, c: CallId)
    requires Reaches(cfg, ls, s) && c in s.calls && Waiting(s.sh, s.calls[c])
    ensures HoldsNothing(s.sh, c)
  {
    RunKeeps(cfg, ls, s);
    WaiterIsIdle(cfg, s.sh, c, s.calls[c]);
  }

  lemma WaiterIsIdle(cfg: Config, sh: Shared, c: CallId, call: Call)
    requires CallInv(cfg, sh, c, call) && Waiting(sh, call)
    ensures HoldsNothing(sh, c)
  {
  }

  // ---------- The environment can always answer ----------

  lemma {:induction false} FreshId(m: map<Id, CallId>) returns (id: Id)
    ensures forall k :: k in m ==> k < id
    decreases |m|
  {
    if m == map[] {
      id := 0;
    } else {
      var k := Pick(m);
      var rest := m - {k};
      id := FreshId(rest);
      assert forall j :: j in m ==> j == k || j in rest;
      if id <= k {
        id := k + 1;
      }
    }
  }

  const ANY_RESULT := GatewayResult(true, "", "", "", "")

  lemma PayLookupProceeds(cfg: Config, sh: Shared, c: CallId, call: Call) returns (ch: Choice)
    requires call.req.PayReq? && call.pc.PayLookup?
    ensures Smooth(call, ch) && PayLookupStep(cfg, sh, c, call, ch).Some?
  {
    var byKey := KeyLookupAnswers(sh.db, call.req.pay.key);
    ch := if Trim(call.req.pay.key) == "" then Go else Found(byKey);
  }

  lemma PayOrderProceeds(cfg: Config, sh: Shared, c: CallId, call: Call) returns (ch: Choice)
    requires call.req.PayReq? && call.pc.PayOrder?
    ensures Smooth(call, ch) && PayOrderStep(cfg, sh, c, call, ch).Some?
  {
    var id := FreshId(sh.owner);
    var byOrder := OrderLookupAnswers(sh.db, call.req.pay.orderId);
    ch := FoundFresh(byOrder, id);
  }

  lemma PayRecoverProceeds(cfg: Config, sh: Shared, c: CallId, call: Call) returns (ch: Choice)
    requires call.req.PayReq? && call.pc.PayRecover?
    ensures Smooth(call, ch) && PayRecoverStep(cfg, sh, c, call, ch).Some?
  {
    var byKey := KeyLookupAnswers(sh.db, call.req.pay.key);
    ch := Found(byKey);
  }

  lemma PayInsertProceeds(cfg: Config, sh: Shared, c: CallId, call: Call) returns (ch: Choice)
    requires call.req.PayReq? && call.pc.PayInsert? && !Waiting(sh, call)
    ensures Smooth(call, ch) && PayInsertStep(cfg, sh, c, call, ch).Some?
  {
    ch := if FitsNumeric(call.pc.p.amount) then Go else Fault;
  }

  lemma PayTxProceeds(cfg: Config, sh: Shared, c: CallId, call: Call) returns (ch: Choice)
    requires call.req.PayReq? && (PayOutsideTx(cfg, sh, c, call) || PayInTx(cfg, sh, c, call)) && !call.Finished()
    requires !call.pc.PayLookup? && !call.pc.PayOrder? && !call.pc.PayRecover? && !call.pc.PayInsert?
    ensures Smooth(call, ch) && PayStep(cfg, sh, c, call, ch).Some?
  {
    var id := FreshId(sh.owner);
    ch := if call.pc.PayGateway? then Outcome(ANY_RESULT) else if call.pc.PayAudit? then Fresh(id) else Go;
  }

  lemma PayProceeds(cfg: Config, sh: Shared, c: CallId, call: Call) returns (ch: Choice)
    requires CallInv(cfg, sh, c, call) && call.req.PayReq? && !call.Finished() && !Waiting(sh, call)
    ensures Smooth(call, ch) && PayStep(cfg, sh, c, call, ch).Some?
  {
    match call.pc
    case PayLookup => ch := PayLookupProceeds(cfg, sh, c, call);
    case PayOrder => ch := PayOrderProceeds(cfg, sh, c, call);
    case PayRecover => ch := PayRecoverProceeds(cfg, sh, c, call);
    case PayInsert(_, _, _) => ch := PayInsertProceeds(cfg, sh, c, call);
    case _ => ch := PayTxProceeds(cfg, sh, c, call);
  }

  lemma RefundReadProceeds(cfg: Config, sh: Shared, c: CallId, call: Call) returns (ch: Choice)
    requires call.req.RefundReq? && (call.pc.RefundLookup? || call.pc.RefundRead?)
    ensures Smooth(call, ch) && RefundStep(cfg, sh, c, call, ch).Some?
  {
    var id := FreshId(sh.owner);
    var found := CorrelationLookupAnswers(sh.db, call.req.refund.correlationId);
    if call.pc.RefundLookup? {
      ch := if Trim(call.req.refund.correlationId) == "" then Go else Found(found);
      assert RefundLookupStep(cfg, sh, c, call, ch).Some?;
    } else {
      ch := Fresh(id);
      assert RefundReadStep(cfg, sh, c, call, ch).Some?;
    }
  }

  lemma RefundOpenProceeds(cfg: Config, sh: Shared, c: CallId, call: Call)
    requires call.req.RefundReq? && !Waiting(sh, call)
    requires call.pc.RefundBegin? || call.pc.RefundLock? || call.pc.RefundFold? || call.pc.RefundCreate?
             || call.pc.RefundMark? || call.pc.RefundProcess?
    ensures Smooth(call, Go) && RefundStep(cfg, sh, c, call, Go).Some?
  {
  }

  lemma RefundCloseProceeds(cfg: Config, sh: Shared, c: CallId, call: Call) returns (ch: Choice)
    requires call.req.RefundReq?
    requires call.pc.RefundGateway? || call.pc.RefundAudit? || call.pc.RefundFinish? || call.pc.RefundStore?
             || call.pc.RefundCommit? || call.pc.Aborting?
    ensures Smooth(call, ch) && RefundStep(cfg, sh, c, call, ch).Some?
  {
    var id := FreshId(sh.owner);
    ch := if call.pc.RefundGateway? then Outcome(ANY_RESULT) else if call.pc.RefundAudit? then Fresh(id) else Go;
  }

  lemma RefundProceeds(cfg: Config, sh: Shared, c: CallId, call: Call) returns (ch: Choice)
    requires CallInv(cfg, sh, c, call) && call.req.RefundReq? && !call.Finished() && !Waiting(sh, call)
    ensures Smooth(call, ch) && RefundStep(cfg, sh, c, call, ch).Some?
  {
    if call.pc.RefundLookup? || call.pc.RefundRead? {
      ch := RefundReadProceeds(cfg, sh, c, call);
    } else if NotAsked(call.pc) && !call.pc.RefundGateway? {
      ch := Go;
      RefundOpenProceeds(cfg, sh, c, call);
    } else {
      ch := RefundCloseProceeds(cfg, sh, c, call);
    }
  }

  /** A call that is neither finished nor waiting has a step. */
  lemma Proceeds(cfg: Config, sh: Shared, c: CallId, call: Call)
    requires CallInv(cfg, sh, c, call) && !call.Finished() && !Waiting(sh, call)
    ensures CanProceed(cfg, sh, c, call)
  {
    var ch: Choice;
    match call.req {
      case PayReq(_) => ch := PayProceeds(cfg, sh, c, call);
      case RefundReq(_) => ch := RefundProceeds(cfg, sh, c, call);
      case StatusReq(_, _) => ch := Go;
    }
    assert Smooth(call, ch) && Step(cfg, sh, c, call, ch).Some?;
  }

  lemma HolderActs(cfg: Config, sh: Shared, c: CallId, call: Call)
    requires CallInv(cfg, sh, c, call) && !HoldsNothing(sh, c)
    ensures !call.Finished() && !Waiting(sh, call)
  {
  }

  /** While any call is unfinished, some call can take a step that is not a failure. */
  lemma NoDeadlock(cfg: Config, ls: seq<Label>, s: State, c: CallId) returns (d: CallId)
    requires Reaches(cfg, ls, s) && c in s.calls && !s.calls[c].Finished()
    ensures d in s.calls && !s.calls[d].Finished() && CanProceed(cfg, s.sh, d, s.calls[d])
  {
    RunKeeps(cfg, ls, s);
    var call := s.calls[c];
    d := c;
    if Waiting(s.sh, call) {
      d := if call.pc.PayInsert? then s.sh.keys[call.pc.p.key.value]
           else if call.pc.RefundLock? then s.sh.locks[call.req.refund.paymentId]
           else s.sh.locks[call.req.paymentId];
      HolderActs(cfg, s.sh, d, s.calls[d]);
    }
    Proceeds(cfg, s.sh, d, s.calls[d]);
  }

  // ---------- Termination ----------

  function RankOf(): Call -> int {
    (call: Call) => Rank(call.pc)
  }

  ghost function Measure(s: State): int {
    Sum(s.calls, RankOf())
  }

  lemma StepRanks(cfg: Config, sh: Shared, c: CallId, call: Call, ch: Choice)
    requires Step(cfg, sh, c, call, ch).Some?
    ensures Rank(Step(cfg, sh, c, call, ch).value.call.pc) < Rank(call.pc)
  {
    if ch != Crash {
      match call.req
      case PayReq(_) => PayMoves(cfg, sh, c, call, ch);
      case RefundReq(_) => RefundMoves(cfg, sh, c, call, ch);
      case StatusReq(_, _) =>
    }
  }

  /** Every step, failures included, uses up some of a finite budget fixed by the calls that were started. */
  lemma {:induction false} RunsAreBounded(cfg: Config, s: State, ls: seq<Label>, s': State)
    requires Run(cfg, s, ls) == Some(s') && forall i :: 0 <= i < |ls| ==> ls[i].Act?
    ensures |ls| + Measure(s') <= Measure(s)
    decreases |ls|
  {
    if ls == [] {
    } else {
      var m := |ls| - 1;
      var before := Run(cfg, s, ls[..m]).value;
      RunsAreBounded(cfg, s, ls[..m], before);
      var c := ls[m].c;
      StepRanks(cfg, before.sh, c, before.calls[c], ls[m].ch);
      SumUpdate(before.calls, c, s'.calls[c], RankOf());
    }
  }

  lemma MeasureNonNegative(s: State)
    ensures 0 <= Measure(s)
  {
    SumNonNegative(s.calls, RankOf());
  }

  lemma SplitLast<T>(xs: seq<T>, ys: seq<T>)
    requires ys != []
    ensures (xs + ys)[..|xs + ys| - 1] == xs + ys[..|ys| - 1] && (xs + ys)[|xs + ys| - 1] == ys[|ys| - 1]
  {
  }

  /** Runs can be put together. */
  lemma {:induction false} RunConcat(cfg: Config, s: State, ls: seq<Label>, mid: State, more: seq<Label>, end: State)
    requires Run(cfg, s, ls) == Some(mid) && Run(cfg, mid, more) == Some(end)
    ensures Run(cfg, s, ls + more) == Some(end)
    decreases |more|
  {
    if more == [] {
      assert ls + more == ls;
    } else {
      var init := more[..|more| - 1];
      SplitLast(ls, more);
      RunConcat(cfg, s, ls, mid, init, Run(cfg, mid, init).value);
    }
  }

  /**
    From any reachable state the calls take at most a fixed number of further steps, in whatever order and with whatever
    failures; and when no step is left to take, every call has returned or vanished.
  */
  lemma MaximalRunsReturn(cfg: Config, ls: seq<Label>, s: State, more: seq<Label>, end: State)
    requires Reaches(cfg, ls, s) && Run(cfg, s, more) == Some(end)
    requires forall i :: 0 <= i < |more| ==> more[i].Act?
    ensures |more| <= Measure(s)
    ensures (forall d :: d in end.calls ==> !CanProceed(cfg, end.sh, d, end.calls[d])) ==>
              forall c :: c in end.calls ==> end.calls[c].Finished()
  {
    RunsAreBounded(cfg, s, more, end);
    MeasureNonNegative(end);
    RunConcat(cfg, INIT, ls, s, more, end);
    if forall d :: d in end.calls ==> !CanProceed(cfg, end.sh, d, end.calls[d]) {
      forall c | c in end.calls
        ensures end.calls[c].Finished()
      {
        if !end.calls[c].Finished() {
          var d := NoDeadlock(cfg, ls + more, end, c);
        }
      }
    }
  }
}
