/**
  How often gateways are asked to charge under one idempotency key. A gateway may recognise the key itself and answer
  with the earlier charge; that is among the answers it may give.
*/
module Charges {
  import opened Base
  import opened Text
  import opened Domain
  import opened Ledger
  import opened Protocol
  import opened Refinement
  import opened Runs
  import opened Theorems
  import opened Traces
  import opened Effects

  /** The stored key of the request behind gateway call `k`, if that is a charge. */
  function KeyOf(s: State, k: nat): Option<string>
    requires k < |s.sh.gateway|
  {
    var g := s.sh.gateway[k];
    if g.ChargeCall? && g.cid in s.calls && s.calls[g.cid].req.PayReq? then NullString(s.calls[g.cid].req.pay.key)
    else None
  }

  /** Of the charges under one key, all but the last are of calls that were broken off. */
  ghost predicate ChargedOnce(cfg: Config, ls: seq<Label>, s: State) {
    forall j, k :: 0 <= j < k < |s.sh.gateway| && KeyOf(s, j).Some? && KeyOf(s, j) == KeyOf(s, k) ==>
      Broken(cfg, ls, s.sh.gateway[j].cid)
  }

  // ---------- What callers keep to ----------

  /** Active payment calls that share a stored key are one call, and their keys are trimmed. */
  ghost predicate KeysSerial(s: State) {
    && (forall c, d :: c in s.calls && d in s.calls && c != d && s.calls[c].req.PayReq? ==>
          NullString(s.calls[c].req.pay.key).Some? && !s.calls[c].Finished() ==>
            !ActiveKey(s.calls[d], s.calls[c].req.pay.key))
    && (forall c :: c in s.calls && s.calls[c].req.PayReq? && NullString(s.calls[c].req.pay.key).Some? ==>
          Trimmed(s.calls[c].req.pay.key))
  }

  lemma KeysStart(cfg: Config, s: State, c: CallId, req: Request)
    requires cfg.serialKeys && cfg.trimmedKeys && KeysSerial(s) && CanStart(cfg, s, c, req)
    ensures KeysSerial(s.(calls := s.calls[c := NewCall(s, req)]))
  {
    var call := NewCall(s, req);
    forall d | d in s.calls && s.calls[d].req.PayReq? && !s.calls[d].Finished()
      ensures NullString(s.calls[d].req.pay.key).Some? ==> !ActiveKey(call, s.calls[d].req.pay.key)
    {
      if req.PayReq? {
        assert NullString(req.pay.key).Some? ==> !ActiveKey(s.calls[d], req.pay.key);
      }
    }
  }

  lemma KeysStay(s: State, c: CallId, n: Next)
    requires KeysSerial(s) && c in s.calls && n.call.req == s.calls[c].req && !s.calls[c].Finished()
    ensures KeysSerial(State(n.sh, s.calls[c := n.call]))
  {
  }

  lemma {:induction false} KeysRun(cfg: Config, ls: seq<Label>, s: State)
    requires cfg.serialKeys && cfg.trimmedKeys && Reaches(cfg, ls, s)
    ensures KeysSerial(s)
    decreases |ls|
  {
    if ls == [] {
      assert s == INIT;
    } else {
      var m := |ls| - 1;
      var before := Run(cfg, INIT, ls[..m]).value;
      KeysRun(cfg, ls[..m], before);
      match ls[m]
      case Start(c, req) => KeysStart(cfg, before, c, req);
      case Act(c, ch) =>
        StepKeepsRequest(cfg, before.sh, c, before.calls[c], ch);
        KeysStay(before, c, Step(cfg, before.sh, c, before.calls[c], ch).value);
    }
  }

  // ---------- A charge with an event has stored its key ----------

  /** The key of a committed charge is taken. */
  lemma ChargeTakesKey(cfg: Config, log: seq<Event>, i: nat)
    requires Replay(cfg, log).Some? && i < |log| && log[i].op.ChargeOp?
    ensures log[i].req.PayReq?
    ensures NullString(log[i].req.pay.key).Some? ==>
              !KeyFree(Replay(cfg, log).value, NullString(log[i].req.pay.key).value)
  {
    ReplayAt(cfg, log, i);
    var db, db' := Replay(cfg, log[..i]).value, Replay(cfg, log[..i + 1]).value;
    ChargeStoresKey(cfg, db, log[i]);
    LaterExtends(cfg, log, i + 1);
    assert SameButStatus(db'.payments[log[i].op.pid], Replay(cfg, log).value.payments[log[i].op.pid]);
  }

  lemma ChargeStoresKey(cfg: Config, db: Db, e: Event)
    requires e.op.ChargeOp? && ApplyEvent(cfg, db, e).Some?
    ensures e.req.PayReq? && e.op.pid in ApplyEvent(cfg, db, e).value.payments
    ensures ApplyEvent(cfg, db, e).value.payments[e.op.pid].key == NullString(e.req.pay.key)
  {
  }

  /** While the key is free, every charge under it is of a call that is still active or was broken off. */
  lemma FreeMeansBroken(cfg: Config, ls: seq<Label>, s: State, k: nat)
    requires Reaches(cfg, ls, s) && k < |s.sh.gateway|
    requires KeyOf(s, k).Some? && KeyFree(s.sh.db, KeyOf(s, k).value)
    ensures s.sh.gateway[k].cid in s.calls
    ensures !s.calls[s.sh.gateway[k].cid].Finished() || Broken(cfg, ls, s.sh.gateway[k].cid)
  {
    CommittedIffUnbroken(cfg, ls, s, k);
    if HasEvent(s.sh.log, k) {
      var i :| 0 <= i < |s.sh.log| && IsWrite(s.sh.log[i].op) && s.sh.log[i].op.gi == k;
      CommitsHaveGatewayCalls(cfg, ls, s, i);
      RequestsRun(cfg, ls, s);
      Serializable(cfg, ls, s);
      ChargeTakesKey(cfg, s.sh.log, i);
    }
  }

  // ---------- Charges under one key ----------

  /** The call has looked its key up and may still ask the gateway. */
  predicate MayAsk(pc: Pc) {
    pc.PayOrder? || pc.PayGateway?
  }

  /** Every charge so far under the key of a call that may still ask is of a call that was broken off. */
  ghost predicate AskersFirst(cfg: Config, ls: seq<Label>, s: State) {
    forall d, k :: d in s.calls && s.calls[d].req.PayReq? && MayAsk(s.calls[d].pc) && 0 <= k < |s.sh.gateway| ==>
      KeyOf(s, k).Some? && KeyOf(s, k) == NullString(s.calls[d].req.pay.key) ==> Broken(cfg, ls, s.sh.gateway[k].cid)
  }

  /** What a step has to do with asking: it gets there by not finding its key, and only from there it charges. */
  ghost predicate Nearing(sh: Shared, c: CallId, call: Call, n: Next) {
    && (MayAsk(n.call.pc) ==>
          && n.sh.gateway == sh.gateway
          && (MayAsk(call.pc)
              || (call.req.PayReq? && call.pc.PayLookup?
                  && (Trim(call.req.pay.key) != "" ==> KeyFree(sh.db, call.req.pay.key)))))
    && (|| n.sh.gateway == sh.gateway
        || (exists g: GatewayCall :: n.sh.gateway == sh.gateway + [g] && g.cid == c
              && (g.ChargeCall? ==> call.req.PayReq? && MayAsk(call.pc) && !MayAsk(n.call.pc))))
  }

  lemma PayReadNears(cfg: Config, sh: Shared, c: CallId, call: Call, ch: Choice)
    requires call.req.PayReq? && PayStep(cfg, sh, c, call, ch).Some?
    requires call.pc.PayLookup? || call.pc.PayOrder? || call.pc.PayGateway?
    ensures Nearing(sh, c, call, PayStep(cfg, sh, c, call, ch).value)
  {
  }

  lemma PayTxNears(cfg: Config, sh: Shared, c: CallId, call: Call, ch: Choice)
    requires call.req.PayReq? && PayStep(cfg, sh, c, call, ch).Some?
    requires call.pc.PayBegin? || call.pc.PayInsert? || call.pc.PayMark? || call.pc.PayAudit? || call.pc.PayFinish?
    ensures Nearing(sh, c, call, PayStep(cfg, sh, c, call, ch).value)
  {
  }

  lemma PayEndNears(cfg: Config, sh: Shared, c: CallId, call: Call, ch: Choice)
    requires call.req.PayReq? && PayStep(cfg, sh, c, call, ch).Some?
    requires call.pc.PayCommit? || call.pc.PayRecover? || call.pc.Aborting?
    ensures Nearing(sh, c, call, PayStep(cfg, sh, c, call, ch).value)
  {
  }

  lemma RefundReadNears(cfg: Config, sh: Shared, c: CallId, call: Call, ch: Choice)
    requires call.req.RefundReq? && RefundStep(cfg, sh, c, call, ch).Some?
    requires call.pc.RefundLookup? || call.pc.RefundRead? || call.pc.RefundBegin? || call.pc.RefundLock?
             || call.pc.RefundFold? || call.pc.RefundCreate?
    ensures Nearing(sh, c, call, RefundStep(cfg, sh, c, call, ch).value)
  {
  }

  lemma RefundWriteNears(cfg: Config, sh: Shared, c: CallId, call: Call, ch: Choice)
    requires call.req.RefundReq? && RefundStep(cfg, sh, c, call, ch).Some?
    requires call.pc.RefundMark? || call.pc.RefundProcess? || call.pc.RefundGateway? || call.pc.RefundAudit?
             || call.pc.RefundFinish? || call.pc.RefundStore? || call.pc.RefundCommit? || call.pc.Aborting?
    ensures Nearing(sh, c, call, RefundStep(cfg, sh, c, call, ch).value)
  {
  }

  lemma StepNears(cfg: Config, sh: Shared, c: CallId, call: Call, ch: Choice)
    requires Step(cfg, sh, c, call, ch).Some?
    ensures Nearing(sh, c, call, Step(cfg, sh, c, call, ch).value)
  {
    if ch != Crash {
      match call.req
      case PayReq(_) =>
        if call.pc.PayLookup? || MayAsk(call.pc) {
          PayReadNears(cfg, sh, c, call, ch);
        } else if call.pc.PayCommit? || call.pc.PayRecover? || call.pc.Aborting? {
          PayEndNears(cfg, sh, c, call, ch);
        } else {
          PayTxNears(cfg, sh, c, call, ch);
        }
      case RefundReq(_) =>
        if NotAsked(call.pc) && !call.pc.RefundMark? && !call.pc.RefundProcess? && !call.pc.RefundGateway? {
          RefundReadNears(cfg, sh, c, call, ch);
        } else {
          RefundWriteNears(cfg, sh, c, call, ch);
        }
      case StatusReq(_, _) =>
    }
  }

  /** The keys of the charges made so far do not change. */
  lemma KeysSame(s: State, c: CallId, n: Next, k: nat)
    requires Traced(s) && c in s.calls && n.call.req == s.calls[c].req && LogGrows(s.sh, n.sh, c) && k < |s.sh.gateway|
    ensures KeyOf(State(n.sh, s.calls[c := n.call]), k) == KeyOf(s, k)
  {
  }

  /** A call that has not found its key learns that all charges under it were broken off. */
  lemma LookupMeansBroken(cfg: Config, ls: seq<Label>, s: State, c: CallId, k: nat)
    requires Reaches(cfg, ls, s) && KeysSerial(s) && c in s.calls && s.calls[c].req.PayReq? && s.calls[c].pc.PayLookup?
    requires Trim(s.calls[c].req.pay.key) != "" ==> KeyFree(s.sh.db, s.calls[c].req.pay.key)
    requires k < |s.sh.gateway| && KeyOf(s, k).Some? && KeyOf(s, k) == NullString(s.calls[c].req.pay.key)
    ensures Broken(cfg, ls, s.sh.gateway[k].cid)
  {
    TrimmedIffFixed(s.calls[c].req.pay.key);
    FreeMeansBroken(cfg, ls, s, k);
    AskedRun(cfg, ls, s);
    assert s.sh.gateway[k].cid != c && !ActiveKey(s.calls[s.sh.gateway[k].cid], s.calls[c].req.pay.key);
  }

  lemma AskersAct(cfg: Config, ls: seq<Label>, s: State, c: CallId, n: Next, d: CallId, k: nat)
    requires Reaches(cfg, ls, s) && KeysSerial(s) && AskersFirst(cfg, ls, s) && Traced(s)
    requires c in s.calls && !s.calls[c].Finished() && n.call.req == s.calls[c].req
    requires Nearing(s.sh, c, s.calls[c], n) && LogGrows(s.sh, n.sh, c)
    requires var s' := State(n.sh, s.calls[c := n.call]);
      && d in s'.calls && s'.calls[d].req.PayReq? && MayAsk(s'.calls[d].pc) && k < |s'.sh.gateway|
      && KeyOf(s', k).Some? && KeyOf(s', k) == NullString(s'.calls[d].req.pay.key)
    ensures Broken(cfg, ls, n.sh.gateway[k].cid)
  {
    if k < |s.sh.gateway| {
      KeysSame(s, c, n, k);
      if d == c && !MayAsk(s.calls[c].pc) {
        LookupMeansBroken(cfg, ls, s, c, k);
      }
    }
  }

  lemma ChargesAct(cfg: Config, ls: seq<Label>, s: State, c: CallId, n: Next, j: nat, k: nat)
    requires AskersFirst(cfg, ls, s) && ChargedOnce(cfg, ls, s) && Traced(s)
    requires c in s.calls && n.call.req == s.calls[c].req
    requires Nearing(s.sh, c, s.calls[c], n) && LogGrows(s.sh, n.sh, c)
    requires var s' := State(n.sh, s.calls[c := n.call]);
      j < k < |s'.sh.gateway| && KeyOf(s', j).Some? && KeyOf(s', j) == KeyOf(s', k)
    ensures Broken(cfg, ls, n.sh.gateway[j].cid)
  {
    KeysSame(s, c, n, j);
    if k < |s.sh.gateway| {
      KeysSame(s, c, n, k);
    }
  }

  ghost predicate ChargesInv(cfg: Config, ls: seq<Label>, s: State) {
    AskersFirst(cfg, ls, s) && ChargedOnce(cfg, ls, s)
  }

  lemma ChargesStep(cfg: Config, ls: seq<Label>, s: State, c: CallId, ch: Choice)
    requires Reaches(cfg, ls, s) && KeysSerial(s) && ChargesInv(cfg, ls, s)
    requires c in s.calls && Step(cfg, s.sh, c, s.calls[c], ch).Some?
    ensures var n := Step(cfg, s.sh, c, s.calls[c], ch).value;
      ChargesInv(cfg, ls, State(n.sh, s.calls[c := n.call]))
  {
    RunKeeps(cfg, ls, s);
    ActKeeps(cfg, s, c, ch);
    StepNears(cfg, s.sh, c, s.calls[c], ch);
    StepKeepsRequest(cfg, s.sh, c, s.calls[c], ch);
    ChargesKept(cfg, ls, s, c, Step(cfg, s.sh, c, s.calls[c], ch).value);
  }

  lemma ChargesKept(cfg: Config, ls: seq<Label>, s: State, c: CallId, n: Next)
    requires Reaches(cfg, ls, s) && KeysSerial(s) && ChargesInv(cfg, ls, s) && Traced(s)
    requires c in s.calls && !s.calls[c].Finished() && n.call.req == s.calls[c].req
    requires Nearing(s.sh, c, s.calls[c], n) && LogGrows(s.sh, n.sh, c)
    ensures ChargesInv(cfg, ls, State(n.sh, s.calls[c := n.call]))
  {
    var s' := State(n.sh, s.calls[c := n.call]);
    forall d, k | d in s'.calls && s'.calls[d].req.PayReq? && MayAsk(s'.calls[d].pc) && 0 <= k < |s'.sh.gateway|
      && KeyOf(s', k).Some? && KeyOf(s', k) == NullString(s'.calls[d].req.pay.key)
      ensures Broken(cfg, ls, s'.sh.gateway[k].cid)
    {
      AskersAct(cfg, ls, s, c, n, d, k);
    }
    forall j, k | 0 <= j < k < |s'.sh.gateway| && KeyOf(s', j).Some? && KeyOf(s', j) == KeyOf(s', k)
      ensures Broken(cfg, ls, s'.sh.gateway[j].cid)
    {
      ChargesAct(cfg, ls, s, c, n, j, k);
    }
  }

  lemma ChargesStart(cfg: Config, ls: seq<Label>, s: State, c: CallId, req: Request)
    requires Traced(s) && ChargesInv(cfg, ls, s) && c !in s.calls
    ensures ChargesInv(cfg, ls, s.(calls := s.calls[c := NewCall(s, req)]))
  {
    var s' := s.(calls := s.calls[c := NewCall(s, req)]);
    assert forall k :: 0 <= k < |s.sh.gateway| ==> KeyOf(s', k) == KeyOf(s, k);
  }

  /** What was broken off stays so. */
  lemma ChargesGrow(cfg: Config, ls: seq<Label>, s: State)
    requires ls != [] && ChargesInv(cfg, ls[..|ls| - 1], s)
    ensures ChargesInv(cfg, ls, s)
  {
    forall c
      ensures Broken(cfg, ls[..|ls| - 1], c) ==> Broken(cfg, ls, c)
    {
      BrokenGrows(cfg, ls, c);
    }
  }

  lemma {:induction false} ChargesRun(cfg: Config, ls: seq<Label>, s: State)
    requires cfg.serialKeys && cfg.trimmedKeys && Reaches(cfg, ls, s)
    ensures ChargesInv(cfg, ls, s)
    decreases |ls|
  {
    if ls == [] {
      assert s == INIT;
    } else {
      var m := |ls| - 1;
      var before := Run(cfg, INIT, ls[..m]).value;
      ChargesRun(cfg, ls[..m], before);
      match ls[m] {
        case Start(c, req) =>
          RunKeeps(cfg, ls[..m], before);
          ChargesStart(cfg, ls[..m], before, c, req);
        case Act(c, ch) =>
          KeysRun(cfg, ls[..m], before);
          ChargesStep(cfg, ls[..m], before, c, ch);
      }
      ChargesGrow(cfg, ls, s);
    }
  }

  /**
    When payment calls of one key do not overlap, calls of other keys overlapping freely, and keys are trimmed, of any
    two charges under one key the earlier was of a call that was broken off, and left no row. A key none of whose calls
    is broken off is charged at most once.
  */
  lemma OneChargePerKey(cfg: Config, ls: seq<Label>, s: State, j: nat, k: nat)
    requires cfg.serialKeys && cfg.trimmedKeys && Reaches(cfg, ls, s)
    requires j < k < |s.sh.gateway| && KeyOf(s, j).Some? && KeyOf(s, j) == KeyOf(s, k)
    ensures Broken(cfg, ls, s.sh.gateway[j].cid) && !HasEvent(s.sh.log, j)
  {
    ChargesRun(cfg, ls, s);
    CommittedIffUnbroken(cfg, ls, s, j);
  }
}
