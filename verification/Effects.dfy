/**
  Which effects at a gateway have a committed row: those of calls that said so, or whose commit lost its reply; in terms
  of what happened to the call, those of calls that were not broken off.
*/
module Effects {
  import opened Domain
  import opened Ledger
  import opened Protocol
  import opened Refinement
  import opened Runs
  import opened Theorems
  import opened Traces

  predicate IsWrite(op: Op) {
    op.ChargeOp? || op.RefundOp?
  }

  /** A committed event records gateway call number `k`. */
  ghost predicate HasEvent(log: seq<Event>, k: nat) {
    exists i :: 0 <= i < |log| && IsWrite(log[i].op) && log[i].op.gi == k
  }

  /** At step `j` of the run call `c` commits, with choice `ch`. */
  ghost predicate CommitsAt(cfg: Config, ls: seq<Label>, j: int, c: CallId, ch: Choice) {
    && 0 <= j < |ls| && ls[j] == Act(c, ch) && Run(cfg, INIT, ls[..j]).Some?
    && c in Run(cfg, INIT, ls[..j]).value.calls && AtCommit(Run(cfg, INIT, ls[..j]).value.calls[c].pc)
  }

  /** Call `c` committed, but the reply to its commit was lost. */
  ghost predicate LostReply(cfg: Config, ls: seq<Label>, c: CallId) {
    exists j :: CommitsAt(cfg, ls, j, c, Lost)
  }

  /** The call answered that it paid or refunded. */
  predicate Succeeded(call: Call) {
    call.pc.Done? && (call.pc.resp.Paid? || call.pc.resp.RefundMade?)
  }

  // ---------- A call asks its gateway at most once ----------

  ghost predicate AskedOnce(s: State) {
    && (forall j, k :: 0 <= j < |s.sh.gateway| && 0 <= k < |s.sh.gateway| ==>
          s.sh.gateway[j].cid == s.sh.gateway[k].cid ==> j == k)
    && (forall c, k :: c in s.calls && NotAsked(s.calls[c].pc) && 0 <= k < |s.sh.gateway| ==> s.sh.gateway[k].cid != c)
  }

  lemma AskedStep(s: State, c: CallId, n: Next)
    requires AskedOnce(s) && c in s.calls && Asks(c, s.calls[c], s.sh, n)
    ensures AskedOnce(State(n.sh, s.calls[c := n.call]))
  {
  }

  lemma {:induction false} AskedRun(cfg: Config, ls: seq<Label>, s: State)
    requires Reaches(cfg, ls, s)
    ensures AskedOnce(s)
    decreases |ls|
  {
    if ls == [] {
      assert s == INIT;
    } else {
      var m := |ls| - 1;
      var before := Run(cfg, INIT, ls[..m]).value;
      AskedRun(cfg, ls[..m], before);
      RunKeeps(cfg, ls[..m], before);
      if ls[m].Act? {
        var c := ls[m].c;
        StepRecords(cfg, before.sh, c, before.calls[c], ls[m].ch);
        AskedStep(before, c, Step(cfg, before.sh, c, before.calls[c], ls[m].ch).value);
      }
    }
  }

  // ---------- Where an event comes from ----------

  /** The step of the run that recorded write event `i`. */
  lemma {:induction false} WriteOrigin(cfg: Config, ls: seq<Label>, s: State, i: nat) returns (j: nat, ch: Choice)
    requires Reaches(cfg, ls, s) && i < |s.sh.log| && IsWrite(s.sh.log[i].op)
    ensures CommitsAt(cfg, ls, j, s.sh.log[i].cid, ch) && (ch == Go || ch == Lost)
    decreases |ls|
  {
    var m := |ls| - 1;
    var before := Run(cfg, INIT, ls[..m]).value;
    RunKeeps(cfg, ls[..m], before);
    if i < |before.sh.log| {
      LogPrefix(cfg, ls, m, before, s);
      assert s.sh.log[i] == s.sh.log[..|before.sh.log|][i];
      j, ch := WriteOrigin(cfg, ls[..m], before, i);
      assert ls[..m][..j] == ls[..j];
    } else {
      var c := ls[m].c;
      ActKeeps(cfg, before, c, ls[m].ch);
      j, ch := m, ls[m].ch;
      NewWrite(cfg, before.sh, c, before.calls[c], ch, i);
    }
  }

  lemma NewWrite(cfg: Config, sh: Shared, c: CallId, call: Call, ch: Choice, i: nat)
    requires Step(cfg, sh, c, call, ch).Some?
    requires |sh.log| <= i < |Step(cfg, sh, c, call, ch).value.sh.log|
    requires IsWrite(Step(cfg, sh, c, call, ch).value.sh.log[i].op)
    ensures AtCommit(call.pc) && (ch == Go || ch == Lost) && Step(cfg, sh, c, call, ch).value.sh.log[i].cid == c
  {
    StepRecords(cfg, sh, c, call, ch);
    assert Logs(c, call, ch, sh, Step(cfg, sh, c, call, ch).value.sh);
  }

  /** A commit that goes through records its write; with its reply, the call says so. */
  lemma CommitWrites(cfg: Config, sh: Shared, c: CallId, call: Call, ch: Choice)
    requires AtCommit(call.pc) && (ch == Go || ch == Lost) && Step(cfg, sh, c, call, ch).Some?
    ensures var n := Step(cfg, sh, c, call, ch).value;
      && |n.sh.log| == |sh.log| + 1 && n.sh.log[|sh.log|].cid == c && IsWrite(n.sh.log[|sh.log|].op)
      && (ch == Go ==> Succeeded(n.call))
  {
  }

  /** The states around a step of the run. */
  lemma Around(cfg: Config, ls: seq<Label>, s: State, j: nat, c: CallId, ch: Choice)
    returns (before: State, after: State)
    requires Reaches(cfg, ls, s) && CommitsAt(cfg, ls, j, c, ch) && (ch == Go || ch == Lost)
    ensures j < |ls| && Reaches(cfg, ls[..j], before) && Reaches(cfg, ls[..j + 1], after)
    ensures c in after.calls && (ch == Go ==> Succeeded(after.calls[c]))
    ensures |after.sh.log| == |before.sh.log| + 1
    ensures after.sh.log[|before.sh.log|].cid == c && IsWrite(after.sh.log[|before.sh.log|].op)
  {
    RunPrefix(cfg, ls, j + 1);
    before, after := Run(cfg, INIT, ls[..j]).value, Run(cfg, INIT, ls[..j + 1]).value;
    assert ls[..j + 1][..j] == ls[..j];
    CommitWrites(cfg, before.sh, c, before.calls[c], ch);
  }

  /** The gateway call behind a committed write is the only one of its call. */
  lemma WriteHasCall(cfg: Config, ls: seq<Label>, s: State, i: nat, k: nat)
    requires Reaches(cfg, ls, s) && i < |s.sh.log| && IsWrite(s.sh.log[i].op) && k < |s.sh.gateway|
    requires s.sh.gateway[k].cid == s.sh.log[i].cid
    ensures s.sh.log[i].op.gi == k
  {
    CommitsHaveGatewayCalls(cfg, ls, s, i);
    AskedRun(cfg, ls, s);
  }

  lemma EventEnds(cfg: Config, ls: seq<Label>, s: State, i: nat)
    requires Reaches(cfg, ls, s) && i < |s.sh.log| && IsWrite(s.sh.log[i].op)
    ensures var c := s.sh.log[i].cid; c in s.calls && (Succeeded(s.calls[c]) || LostReply(cfg, ls, c))
  {
    var c := s.sh.log[i].cid;
    RunKeeps(cfg, ls, s);
    var j, ch := WriteOrigin(cfg, ls, s, i);
    if ch == Go {
      var before, after := Around(cfg, ls, s, j, c, ch);
      RunCalls(cfg, ls, j + 1, after, s);
    }
  }

  lemma SuccessWrites(cfg: Config, ls: seq<Label>, s: State, c: CallId) returns (i: nat)
    requires Reaches(cfg, ls, s) && c in s.calls && Succeeded(s.calls[c])
    ensures i < |s.sh.log| && s.sh.log[i].cid == c && IsWrite(s.sh.log[i].op)
  {
    Serializable(cfg, ls, s);
    i := s.calls[c].pc.at;
    ReplayAt(cfg, s.sh.log, i);
    OnlyWritesSucceed(cfg, Replay(cfg, s.sh.log[..i]).value, s.sh.log[i]);
  }

  lemma OnlyWritesSucceed(cfg: Config, db: Db, e: Event)
    requires ApplyEvent(cfg, db, e).Some? && (e.resp.Paid? || e.resp.RefundMade?)
    ensures IsWrite(e.op)
  {
  }

  /** The event that a commit in the run recorded. */
  lemma WritesAt(cfg: Config, ls: seq<Label>, s: State, j: nat, c: CallId, ch: Choice) returns (i: nat)
    requires Reaches(cfg, ls, s) && CommitsAt(cfg, ls, j, c, ch) && (ch == Go || ch == Lost)
    ensures i < |s.sh.log| && s.sh.log[i].cid == c && IsWrite(s.sh.log[i].op)
  {
    var before, after := Around(cfg, ls, s, j, c, ch);
    LogPrefix(cfg, ls, j + 1, after, s);
    i := |before.sh.log|;
    assert s.sh.log[..|after.sh.log|][i] == after.sh.log[i];
  }

  lemma LostWrites(cfg: Config, ls: seq<Label>, s: State, c: CallId) returns (i: nat)
    requires Reaches(cfg, ls, s) && LostReply(cfg, ls, c)
    ensures i < |s.sh.log| && s.sh.log[i].cid == c && IsWrite(s.sh.log[i].op)
  {
    var j :| CommitsAt(cfg, ls, j, c, Lost);
    i := WritesAt(cfg, ls, s, j, c, Lost);
  }

  /**
    A gateway call has a committed row exactly when the call that made it answered that it paid or refunded, or lost the
    reply to its commit.
  */
  lemma CommittedIffAnswered(cfg: Config, ls: seq<Label>, s: State, k: nat)
    requires Reaches(cfg, ls, s) && k < |s.sh.gateway|
    ensures var c := s.sh.gateway[k].cid;
      c in s.calls && (HasEvent(s.sh.log, k) <==> Succeeded(s.calls[c]) || LostReply(cfg, ls, c))
  {
    var c := s.sh.gateway[k].cid;
    RunKeeps(cfg, ls, s);
    if HasEvent(s.sh.log, k) {
      var i :| 0 <= i < |s.sh.log| && IsWrite(s.sh.log[i].op) && s.sh.log[i].op.gi == k;
      CommitsHaveGatewayCalls(cfg, ls, s, i);
      EventEnds(cfg, ls, s, i);
    }
    if Succeeded(s.calls[c]) {
      var i := SuccessWrites(cfg, ls, s, c);
      WriteHasCall(cfg, ls, s, i, k);
    }
    if LostReply(cfg, ls, c) {
      var i := LostWrites(cfg, ls, s, c);
      WriteHasCall(cfg, ls, s, i, k);
    }
  }

  // ---------- Events and gateway calls ----------

  /** Every event carries the request of its call. */
  ghost predicate RequestsMatch(s: State) {
    forall i :: 0 <= i < |s.sh.log| ==> s.sh.log[i].cid in s.calls && s.sh.log[i].req == s.calls[s.sh.log[i].cid].req
  }

  lemma RequestsStay(s: State, c: CallId, ch: Choice, n: Next)
    requires RequestsMatch(s) && c in s.calls && n.call.req == s.calls[c].req && Logs(c, s.calls[c], ch, s.sh, n.sh)
    ensures RequestsMatch(State(n.sh, s.calls[c := n.call]))
  {
  }

  lemma {:induction false} RequestsRun(cfg: Config, ls: seq<Label>, s: State)
    requires Reaches(cfg, ls, s)
    ensures RequestsMatch(s)
    decreases |ls|
  {
    if ls == [] {
      assert s == INIT;
    } else {
      var m := |ls| - 1;
      var before := Run(cfg, INIT, ls[..m]).value;
      RequestsRun(cfg, ls[..m], before);
      if ls[m].Act? {
        var c := ls[m].c;
        StepRecords(cfg, before.sh, c, before.calls[c], ls[m].ch);
        StepKeepsRequest(cfg, before.sh, c, before.calls[c], ls[m].ch);
        RequestsStay(before, c, ls[m].ch, Step(cfg, before.sh, c, before.calls[c], ls[m].ch).value);
      }
    }
  }

  lemma HasEventGrows(log: seq<Event>, e: Event, k: nat)
    ensures HasEvent(log + [e], k) <==> HasEvent(log, k) || (IsWrite(e.op) && e.op.gi == k)
  {
    var log' := log + [e];
    if HasEvent(log, k) {
      var i :| 0 <= i < |log| && IsWrite(log[i].op) && log[i].op.gi == k;
      assert log'[i] == log[i];
    }
    if IsWrite(e.op) && e.op.gi == k {
      assert log'[|log|] == e;
    }
    if HasEvent(log', k) {
      var i :| 0 <= i < |log'| && IsWrite(log'[i].op) && log'[i].op.gi == k;
      assert i < |log| ==> log[i] == log'[i];
    }
  }

  lemma EventsBelow(cfg: Config, sh: Shared, k: nat)
    requires SharedInv(cfg, sh) && HasEvent(sh.log, k)
    ensures k < |sh.gateway|
  {
    var i :| 0 <= i < |sh.log| && IsWrite(sh.log[i].op) && sh.log[i].op.gi == k;
    assert GatewayMatches(cfg, sh, sh.log[i]);
  }

  /** No two events have one gateway call. */
  lemma EventsApart(cfg: Config, ls: seq<Label>, s: State, i: nat, j: nat)
    requires Reaches(cfg, ls, s) && i < |s.sh.log| && IsWrite(s.sh.log[i].op)
    requires j < |s.sh.log| && IsWrite(s.sh.log[j].op) && s.sh.log[i].op.gi == s.sh.log[j].op.gi
    ensures i == j
  {
    CommitsHaveGatewayCalls(cfg, ls, s, i);
    CommitsHaveGatewayCalls(cfg, ls, s, j);
    Serializable(cfg, ls, s);
    RunKeeps(cfg, ls, s);
    assert AtMostOneEvent(s.sh, s.sh.log[i].cid);
  }

  /** The gateway call of a new event had none before. */
  lemma NewEvent(cfg: Config, ls: seq<Label>, s: State, log: seq<Event>)
    requires Reaches(cfg, ls, s) && |s.sh.log| == |log| + 1 && s.sh.log == log + [s.sh.log[|log|]]
    requires IsWrite(s.sh.log[|log|].op)
    ensures !HasEvent(log, s.sh.log[|log|].op.gi)
  {
    var k := s.sh.log[|log|].op.gi;
    if HasEvent(log, k) {
      var i :| 0 <= i < |log| && IsWrite(log[i].op) && log[i].op.gi == k;
      assert s.sh.log[i] == log[i];
      EventsApart(cfg, ls, s, i, |log|);
    }
  }

  // ---------- How an effect is left without its row ----------

  /** The step breaks its call off: the store fails, the call vanishes, or its insert finds the key committed. */
  predicate Breaks(sh: Shared, call: Call, ch: Choice) {
    || ch == Fault || ch == Crash
    || (ch == Go && call.pc.PayInsert? && call.pc.p.key.Some? && !KeyFree(sh.db, call.pc.p.key.value))
  }

  /** Step `j` of the run breaks call `c` off. */
  ghost predicate BrokenAt(cfg: Config, ls: seq<Label>, j: int, c: CallId) {
    && 0 <= j < |ls| && ls[j].Act? && ls[j].c == c && Run(cfg, INIT, ls[..j]).Some?
    && var s := Run(cfg, INIT, ls[..j]).value;
    && c in s.calls && Breaks(s.sh, s.calls[c], ls[j].ch)
  }

  ghost predicate Broken(cfg: Config, ls: seq<Label>, c: CallId) {
    exists j :: BrokenAt(cfg, ls, j, c)
  }

  /** Only the last step can be new among those that break a call off. */
  lemma BrokenGrows(cfg: Config, ls: seq<Label>, c: CallId)
    requires ls != []
    ensures Broken(cfg, ls, c) <==> Broken(cfg, ls[..|ls| - 1], c) || BrokenAt(cfg, ls, |ls| - 1, c)
  {
    var m := |ls| - 1;
    forall j | 0 <= j < m
      ensures BrokenAt(cfg, ls, j, c) == BrokenAt(cfg, ls[..m], j, c)
    {
      assert ls[..m][..j] == ls[..j];
    }
    if Broken(cfg, ls[..m], c) {
      var j :| BrokenAt(cfg, ls[..m], j, c);
      assert BrokenAt(cfg, ls, j, c);
    }
    if Broken(cfg, ls, c) {
      var j :| BrokenAt(cfg, ls, j, c);
      assert j == m || BrokenAt(cfg, ls[..m], j, c);
    }
  }

  /** The last step breaks off at most its own call. */
  lemma BrokenByStep(cfg: Config, ls: seq<Label>, before: State, c: CallId, ch: Choice, d: CallId)
    requires ls != [] && ls[|ls| - 1] == Act(c, ch) && Reaches(cfg, ls[..|ls| - 1], before) && c in before.calls
    ensures Broken(cfg, ls, d) <==>
              Broken(cfg, ls[..|ls| - 1], d) || (d == c && Breaks(before.sh, before.calls[c], ch))
  {
    BrokenGrows(cfg, ls, d);
  }

  /** The transaction is being rolled back, or has been. */
  predicate Undoing(pc: Pc) {
    pc.Aborting? || pc.PayRecover?
  }

  /** What the program counter says about a call that has or has not asked its gateway, been broken off and written. */
  predicate Fate(pc: Pc, asked: bool, broken: bool, wrote: bool) {
    if pc.Done? || pc.Gone? then asked ==> (wrote <==> !broken)
    else if Undoing(pc) then !wrote && (asked ==> broken)
    else !wrote && !broken
  }

  /** The step records a charge or a refund. */
  predicate Writes(sh: Shared, sh': Shared) {
    |sh.log| < |sh'.log| && IsWrite(sh'.log[|sh.log|].op)
  }

  /** Where a step leads: on, without an event; to a rollback; or to the end, with the event of a commit or without. */
  predicate Turns(sh: Shared, call: Call, breaks: bool, n: Next) {
    if n.call.Finished() then
      && n.sh.gateway == sh.gateway
      && (if Writes(sh, n.sh) then AtCommit(call.pc) && !breaks else breaks || NotAsked(call.pc) || Undoing(call.pc))
    else if Undoing(n.call.pc) then
      && n.sh.gateway == sh.gateway && !Writes(sh, n.sh) && (breaks || NotAsked(call.pc) || Undoing(call.pc))
    else
      !breaks && !Writes(sh, n.sh) && !Undoing(call.pc)
  }

  lemma PayLookupTurns(cfg: Config, sh: Shared, c: CallId, call: Call, ch: Choice)
    requires call.req.PayReq? && call.pc.PayLookup? && PayLookupStep(cfg, sh, c, call, ch).Some?
    ensures Turns(sh, call, Breaks(sh, call, ch), PayLookupStep(cfg, sh, c, call, ch).value)
  {
  }

  lemma PayOrderTurns(cfg: Config, sh: Shared, c: CallId, call: Call, ch: Choice)
    requires call.req.PayReq? && call.pc.PayOrder? && PayOrderStep(cfg, sh, c, call, ch).Some?
    ensures Turns(sh, call, Breaks(sh, call, ch), PayOrderStep(cfg, sh, c, call, ch).value)
  {
  }

  lemma PayInsertTurns(cfg: Config, sh: Shared, c: CallId, call: Call, ch: Choice)
    requires call.req.PayReq? && call.pc.PayInsert? && PayInsertStep(cfg, sh, c, call, ch).Some?
    ensures Turns(sh, call, Breaks(sh, call, ch), PayInsertStep(cfg, sh, c, call, ch).value)
  {
  }

  lemma PayWriteTurns(cfg: Config, sh: Shared, c: CallId, call: Call, ch: Choice)
    requires call.req.PayReq? && PayStep(cfg, sh, c, call, ch).Some?
    requires call.pc.PayGateway? || call.pc.PayBegin? || call.pc.PayMark? || call.pc.PayAudit? || call.pc.PayFinish?
    ensures Turns(sh, call, Breaks(sh, call, ch), PayStep(cfg, sh, c, call, ch).value)
  {
  }

  lemma PayUndoTurns(cfg: Config, sh: Shared, c: CallId, call: Call, ch: Choice)
    requires call.req.PayReq? && PayStep(cfg, sh, c, call, ch).Some? && (call.pc.PayRecover? || call.pc.Aborting?)
    ensures Turns(sh, call, Breaks(sh, call, ch), PayStep(cfg, sh, c, call, ch).value)
  {
  }

  lemma CommitTurns(sh: Shared, c: CallId, call: Call, op: Op, resp: Response, ch: Choice)
    requires CommitStep(sh, c, call, op, resp, ch).Some? && AtCommit(call.pc) && IsWrite(op)
    ensures Turns(sh, call, Breaks(sh, call, ch), CommitStep(sh, c, call, op, resp, ch).value)
  {
  }

  lemma PayTurns(cfg: Config, sh: Shared, c: CallId, call: Call, ch: Choice)
    requires call.req.PayReq? && PayStep(cfg, sh, c, call, ch).Some?
    ensures Turns(sh, call, Breaks(sh, call, ch), PayStep(cfg, sh, c, call, ch).value)
  {
    match call.pc
    case PayLookup => PayLookupTurns(cfg, sh, c, call, ch);
    case PayOrder => PayOrderTurns(cfg, sh, c, call, ch);
    case PayInsert(_, _, _) => PayInsertTurns(cfg, sh, c, call, ch);
    case PayRecover => PayUndoTurns(cfg, sh, c, call, ch);
    case Aborting(_, _) => PayUndoTurns(cfg, sh, c, call, ch);
    case PayCommit(p, res, gi, tid) =>
      CommitTurns(sh, c, call, ChargeOp(p.id, tid, p.createdAt, res, gi), Paid(p), ch);
    case _ => PayWriteTurns(cfg, sh, c, call, ch);
  }

  lemma RefundReadTurns(cfg: Config, sh: Shared, c: CallId, call: Call, ch: Choice)
    requires call.req.RefundReq? && RefundStep(cfg, sh, c, call, ch).Some?
    requires call.pc.RefundLookup? || call.pc.RefundRead? || call.pc.RefundBegin?
    ensures Turns(sh, call, Breaks(sh, call, ch), RefundStep(cfg, sh, c, call, ch).value)
  {
  }

  lemma RefundLockTurns(cfg: Config, sh: Shared, c: CallId, call: Call, ch: Choice)
    requires call.req.RefundReq? && RefundStep(cfg, sh, c, call, ch).Some?
    requires call.pc.RefundLock? || call.pc.RefundFold?
    ensures Turns(sh, call, Breaks(sh, call, ch), RefundStep(cfg, sh, c, call, ch).value)
  {
  }

  lemma RefundOpenTurns(cfg: Config, sh: Shared, c: CallId, call: Call, ch: Choice)
    requires call.req.RefundReq? && RefundStep(cfg, sh, c, call, ch).Some?
    requires call.pc.RefundCreate? || call.pc.RefundMark? || call.pc.RefundProcess? || call.pc.RefundGateway?
    ensures Turns(sh, call, Breaks(sh, call, ch), RefundStep(cfg, sh, c, call, ch).value)
  {
  }

  lemma RefundCloseTurns(cfg: Config, sh: Shared, c: CallId, call: Call, ch: Choice)
    requires call.req.RefundReq? && RefundStep(cfg, sh, c, call, ch).Some?
    requires call.pc.RefundAudit? || call.pc.RefundFinish? || call.pc.RefundStore? || call.pc.Aborting?
    ensures Turns(sh, call, Breaks(sh, call, ch), RefundStep(cfg, sh, c, call, ch).value)
  {
  }

  lemma RefundTurns(cfg: Config, sh: Shared, c: CallId, call: Call, ch: Choice)
    requires call.req.RefundReq? && RefundStep(cfg, sh, c, call, ch).Some?
    ensures Turns(sh, call, Breaks(sh, call, ch), RefundStep(cfg, sh, c, call, ch).value)
  {
    if call.pc.RefundCommit? {
      var RefundCommit(r, res, gi, tid) := call.pc;
      CommitTurns(sh, c, call, RefundOp(r.id, tid, r.createdAt, res, gi), RefundMade(r), ch);
    } else if call.pc.RefundLookup? || call.pc.RefundRead? || call.pc.RefundBegin? {
      RefundReadTurns(cfg, sh, c, call, ch);
    } else if call.pc.RefundLock? || call.pc.RefundFold? {
      RefundLockTurns(cfg, sh, c, call, ch);
    } else if NotAsked(call.pc) {
      RefundOpenTurns(cfg, sh, c, call, ch);
    } else {
      RefundCloseTurns(cfg, sh, c, call, ch);
    }
  }

  lemma StatusTurns(cfg: Config, sh: Shared, c: CallId, call: Call, ch: Choice)
    requires call.req.StatusReq? && StatusStep(cfg, sh, c, call, ch).Some?
    ensures Turns(sh, call, Breaks(sh, call, ch), StatusStep(cfg, sh, c, call, ch).value)
  {
  }

  lemma StepTurns(cfg: Config, sh: Shared, c: CallId, call: Call, ch: Choice)
    requires Step(cfg, sh, c, call, ch).Some?
    ensures Turns(sh, call, Breaks(sh, call, ch), Step(cfg, sh, c, call, ch).value)
  {
    if ch != Crash {
      match call.req
      case PayReq(_) => PayTurns(cfg, sh, c, call, ch);
      case RefundReq(_) => RefundTurns(cfg, sh, c, call, ch);
      case StatusReq(_, _) => StatusTurns(cfg, sh, c, call, ch);
    }
  }

  /** Call `c` asked its gateway. */
  ghost predicate Asked(sh: Shared, c: CallId) {
    exists k :: 0 <= k < |sh.gateway| && sh.gateway[k].cid == c
  }

  /** Call `c` has a charge or a refund in the log. */
  ghost predicate Wrote(sh: Shared, c: CallId) {
    exists i :: 0 <= i < |sh.log| && sh.log[i].cid == c && IsWrite(sh.log[i].op)
  }

  ghost predicate Fates(cfg: Config, ls: seq<Label>, s: State) {
    && (forall c :: c in s.calls ==> Fate(s.calls[c].pc, Asked(s.sh, c), Broken(cfg, ls, c), Wrote(s.sh, c)))
    && (forall c :: c !in s.calls ==> !Broken(cfg, ls, c))
  }

  lemma OwnRecords(cfg: Config, sh: Shared, c: CallId, call: Call, ch: Choice)
    requires Step(cfg, sh, c, call, ch).Some?
    ensures var n := Step(cfg, sh, c, call, ch).value;
      && (Asked(n.sh, c) <==> Asked(sh, c) || n.sh.gateway != sh.gateway)
      && (Wrote(n.sh, c) <==> Wrote(sh, c) || Writes(sh, n.sh))
  {
    StepRecords(cfg, sh, c, call, ch);
    AsksOwn(c, call, sh, Step(cfg, sh, c, call, ch).value);
    LogsOwn(c, call, ch, sh, Step(cfg, sh, c, call, ch).value.sh);
  }

  lemma AsksOwn(c: CallId, call: Call, sh: Shared, n: Next)
    requires Asks(c, call, sh, n)
    ensures Asked(n.sh, c) <==> Asked(sh, c) || n.sh.gateway != sh.gateway
  {
    if n.sh.gateway != sh.gateway {
      assert n.sh.gateway[|sh.gateway|].cid == c;
    }
  }

  lemma LogsOwn(c: CallId, call: Call, ch: Choice, sh: Shared, sh': Shared)
    requires Logs(c, call, ch, sh, sh')
    ensures Wrote(sh', c) <==> Wrote(sh, c) || Writes(sh, sh')
  {
    assert sh'.log != sh.log ==> sh'.log[|sh.log|].cid == c;
    if Wrote(sh, c) {
      var i :| 0 <= i < |sh.log| && sh.log[i].cid == c && IsWrite(sh.log[i].op);
      assert sh'.log[i] == sh.log[i];
    }
    if Wrote(sh', c) {
      var i :| 0 <= i < |sh'.log| && sh'.log[i].cid == c && IsWrite(sh'.log[i].op);
      assert i < |sh.log| ==> sh'.log[i] == sh.log[i];
    }
  }

  lemma OtherRecords(sh: Shared, sh': Shared, c: CallId, d: CallId)
    requires LogGrows(sh, sh', c) && d != c
    ensures Asked(sh', d) == Asked(sh, d) && Wrote(sh', d) == Wrote(sh, d)
  {
    if Asked(sh, d) {
      var k :| 0 <= k < |sh.gateway| && sh.gateway[k].cid == d;
      assert sh'.gateway[k] == sh.gateway[k];
    }
    if Wrote(sh, d) {
      var i :| 0 <= i < |sh.log| && sh.log[i].cid == d && IsWrite(sh.log[i].op);
      assert sh'.log[i] == sh.log[i];
    }
  }

  lemma OwnFate(sh: Shared, call: Call, n: Next, breaks: bool, asked: bool, broken: bool, wrote: bool)
    requires Fate(call.pc, asked, broken, wrote) && Turns(sh, call, breaks, n) && !call.Finished()
    requires NotAsked(call.pc) ==> !asked
    ensures Fate(n.call.pc, asked || n.sh.gateway != sh.gateway, broken || breaks, wrote || Writes(sh, n.sh))
  {
  }

  /** The fate of the call that takes a step. */
  lemma StepFate(cfg: Config, sh: Shared, c: CallId, call: Call, ch: Choice, broken: bool)
    requires Step(cfg, sh, c, call, ch).Some? && Fate(call.pc, Asked(sh, c), broken, Wrote(sh, c))
    requires NotAsked(call.pc) ==> !Asked(sh, c)
    ensures var n := Step(cfg, sh, c, call, ch).value;
      Fate(n.call.pc, Asked(n.sh, c), broken || Breaks(sh, call, ch), Wrote(n.sh, c))
  {
    StepTurns(cfg, sh, c, call, ch);
    OwnRecords(cfg, sh, c, call, ch);
    OwnFate(sh, call, Step(cfg, sh, c, call, ch).value, Breaks(sh, call, ch), Asked(sh, c), broken, Wrote(sh, c));
  }

  /** The fates after call `c` has taken the last step. */
  lemma FatesAct(cfg: Config, ls: seq<Label>, before: State, c: CallId, ch: Choice)
    requires ls != [] && ls[|ls| - 1] == Act(c, ch) && Reaches(cfg, ls[..|ls| - 1], before)
    requires StateInv(cfg, before) && AskedOnce(before) && Fates(cfg, ls[..|ls| - 1], before)
    requires c in before.calls && Step(cfg, before.sh, c, before.calls[c], ch).Some?
    ensures var n := Step(cfg, before.sh, c, before.calls[c], ch).value;
      Fates(cfg, ls, State(n.sh, before.calls[c := n.call]))
  {
    var n := Step(cfg, before.sh, c, before.calls[c], ch).value;
    var s := State(n.sh, before.calls[c := n.call]);
    ActKeeps(cfg, before, c, ch);
    StepFate(cfg, before.sh, c, before.calls[c], ch, Broken(cfg, ls[..|ls| - 1], c));
    forall d
      ensures d in s.calls ==> Fate(s.calls[d].pc, Asked(s.sh, d), Broken(cfg, ls, d), Wrote(s.sh, d))
      ensures d !in s.calls ==> !Broken(cfg, ls, d)
    {
      BrokenByStep(cfg, ls, before, c, ch, d);
      if d != c {
        OtherRecords(before.sh, n.sh, c, d);
      }
    }
  }

  /** A call that has just begun has done nothing. */
  lemma FatesStart(cfg: Config, ls: seq<Label>, before: State, s: State, c: CallId, req: Request)
    requires Reaches(cfg, ls, s) && ls != [] && ls[|ls| - 1] == Start(c, req)
    requires Reaches(cfg, ls[..|ls| - 1], before) && Fates(cfg, ls[..|ls| - 1], before)
    ensures Fates(cfg, ls, s)
  {
    RunKeeps(cfg, ls[..|ls| - 1], before);
    forall d
      ensures d in s.calls ==> Fate(s.calls[d].pc, Asked(s.sh, d), Broken(cfg, ls, d), Wrote(s.sh, d))
      ensures d !in s.calls ==> !Broken(cfg, ls, d)
    {
      BrokenGrows(cfg, ls, d);
    }
  }

  lemma {:induction false} FatesRun(cfg: Config, ls: seq<Label>, s: State)
    requires Reaches(cfg, ls, s)
    ensures Fates(cfg, ls, s)
    decreases |ls|
  {
    if ls == [] {
      assert s == INIT;
    } else {
      var m := |ls| - 1;
      var before := Run(cfg, INIT, ls[..m]).value;
      FatesRun(cfg, ls[..m], before);
      match ls[m]
      case Start(c, req) => FatesStart(cfg, ls, before, s, c, req);
      case Act(c, ch) =>
        AskedRun(cfg, ls[..m], before);
        RunKeeps(cfg, ls[..m], before);
        FatesAct(cfg, ls, before, c, ch);
    }
  }

  /** The events of a call are those of its only gateway call. */
  lemma WroteIffEvent(cfg: Config, ls: seq<Label>, s: State, k: nat)
    requires Reaches(cfg, ls, s) && k < |s.sh.gateway|
    ensures Wrote(s.sh, s.sh.gateway[k].cid) <==> HasEvent(s.sh.log, k)
  {
    var c := s.sh.gateway[k].cid;
    if Wrote(s.sh, c) {
      var i :| 0 <= i < |s.sh.log| && s.sh.log[i].cid == c && IsWrite(s.sh.log[i].op);
      WriteHasCall(cfg, ls, s, i, k);
    }
    if HasEvent(s.sh.log, k) {
      var i :| 0 <= i < |s.sh.log| && IsWrite(s.sh.log[i].op) && s.sh.log[i].op.gi == k;
      CommitsHaveGatewayCalls(cfg, ls, s, i);
    }
  }

  /**
    Once a call has returned or vanished, its gateway call has a committed row exactly when no step of the call was a
    failure of the store, a crash, or an insert that found its key committed. In the last case nothing failed.
  */
  lemma CommittedIffUnbroken(cfg: Config, ls: seq<Label>, s: State, k: nat)
    requires Reaches(cfg, ls, s) && k < |s.sh.gateway|
    ensures var c := s.sh.gateway[k].cid;
      && c in s.calls
      && (s.calls[c].Finished() ==> (HasEvent(s.sh.log, k) <==> !Broken(cfg, ls, c)))
      && (!s.calls[c].Finished() ==> !HasEvent(s.sh.log, k))
  {
    RunKeeps(cfg, ls, s);
    FatesRun(cfg, ls, s);
    WroteIffEvent(cfg, ls, s, k);
    assert Asked(s.sh, s.sh.gateway[k].cid);
  }
}
