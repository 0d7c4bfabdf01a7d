/** How much the gateways paid back for a payment, against what its rows say. */
module Payouts {
  import opened Base
  import opened Sums
  import opened Domain
  import opened Protocol
  import opened Refinement
  import opened Runs
  import opened Theorems
  import opened Traces
  import opened Effects

  /** What gateway call `k` paid back for payment `p`. */
  function PaidBack(s: State, p: Id, k: nat): int
    requires k < |s.sh.gateway|
  {
    var g := s.sh.gateway[k];
    if g.RefundCall? && g.result.success && g.cid in s.calls && s.calls[g.cid].req.RefundReq?
      && s.calls[g.cid].req.refund.paymentId == p
    then g.amount
    else 0
  }

  function Same(): int -> int {
    (x: int) => x
  }

  ghost function Payouts(s: State, p: Id, ks: set<nat>): map<nat, int>
    requires forall k :: k in ks ==> k < |s.sh.gateway|
  {
    map k | k in ks :: PaidBack(s, p, k)
  }

  /** What the gateway calls numbered `ks` paid back for payment `p`. */
  ghost function PaidBackBy(s: State, p: Id, ks: set<nat>): int
    requires forall k :: k in ks ==> k < |s.sh.gateway|
  {
    Sum(Payouts(s, p, ks), Same())
  }

  /** All refund calls; those with a committed event; those of calls that were not broken off; and the others. */
  ghost function RefundCalls(s: State): set<nat> {
    set k: nat | 0 <= k < |s.sh.gateway| && s.sh.gateway[k].RefundCall?
  }

  ghost function WithEvent(s: State): set<nat> {
    set k: nat | k in RefundCalls(s) && HasEvent(s.sh.log, k)
  }

  ghost function Unbroken(cfg: Config, ls: seq<Label>, s: State): set<nat> {
    set k: nat | k in RefundCalls(s) && !Broken(cfg, ls, s.sh.gateway[k].cid)
  }

  ghost function BrokenOff(cfg: Config, ls: seq<Label>, s: State): set<nat> {
    set k: nat | k in RefundCalls(s) && Broken(cfg, ls, s.sh.gateway[k].cid)
  }

  // ---------- Sums of payouts ----------

  lemma PayoutsAdd(s: State, p: Id, ks: set<nat>, k: nat)
    requires (forall j :: j in ks ==> j < |s.sh.gateway|) && k < |s.sh.gateway|
    ensures Payouts(s, p, ks + {k}) == Payouts(s, p, ks)[k := PaidBack(s, p, k)]
  {
  }

  lemma PaidBackAdd(s: State, p: Id, ks: set<nat>, k: nat)
    requires (forall j :: j in ks ==> j < |s.sh.gateway|) && k < |s.sh.gateway| && k !in ks
    ensures PaidBackBy(s, p, ks + {k}) == PaidBackBy(s, p, ks) + PaidBack(s, p, k)
  {
    PayoutsAdd(s, p, ks, k);
    SumInsert(Payouts(s, p, ks), k, PaidBack(s, p, k), Same());
  }

  lemma {:induction false} PaidBackUnion(s: State, p: Id, js: set<nat>, ks: set<nat>)
    requires (forall j :: j in js ==> j < |s.sh.gateway|) && (forall k :: k in ks ==> k < |s.sh.gateway|) && js !! ks
    ensures PaidBackBy(s, p, js + ks) == PaidBackBy(s, p, js) + PaidBackBy(s, p, ks)
    decreases ks
  {
    if ks == {} {
      assert js + ks == js;
    } else {
      var k :| k in ks;
      var rest := ks - {k};
      PaidBackUnion(s, p, js, rest);
      PaidBackAdd(s, p, rest, k);
      PaidBackAdd(s, p, js + rest, k);
      assert rest + {k} == ks && js + rest + {k} == js + ks;
    }
  }

  lemma PaidBackSame(s: State, s': State, p: Id, ks: set<nat>)
    requires forall k :: k in ks ==>
               k < |s.sh.gateway| && k < |s'.sh.gateway| && PaidBack(s', p, k) == PaidBack(s, p, k)
    ensures PaidBackBy(s', p, ks) == PaidBackBy(s, p, ks)
  {
    assert Payouts(s', p, ks) == Payouts(s, p, ks);
  }

  // ---------- Calls with an event pay back what the rows say ----------

  /** What event `e` adds to the refunds of payment `p`. */
  function RefundedBy(e: Event, p: Id): int {
    if e.op.RefundOp? && e.op.res.success && e.req.RefundReq? && e.req.refund.paymentId == p then e.req.refund.amount
    else 0
  }

  lemma EventAdds(cfg: Config, db: Db, e: Event, p: Id)
    requires ApplyEvent(cfg, db, e).Some?
    ensures Total(ApplyEvent(cfg, db, e).value.refunds, p) == Total(db.refunds, p) + RefundedBy(e, p)
  {
    if e.op.RefundOp? {
      SumInsert(db.refunds, e.op.rid, e.resp.refund, CompletedOf(p));
    }
  }

  /** The event of a gateway call says what it paid back. */
  lemma EventPays(cfg: Config, ls: seq<Label>, s: State, i: nat, p: Id)
    requires Reaches(cfg, ls, s) && i < |s.sh.log| && IsWrite(s.sh.log[i].op)
    ensures s.sh.log[i].op.gi < |s.sh.gateway| && PaidBack(s, p, s.sh.log[i].op.gi) == RefundedBy(s.sh.log[i], p)
  {
    CommitsHaveGatewayCalls(cfg, ls, s, i);
    RequestsRun(cfg, ls, s);
  }

  /** Calls keep what they paid back. */
  lemma PaidBackKept(s: State, c: CallId, n: Next, p: Id)
    requires Traced(s) && c in s.calls && n.call.req == s.calls[c].req && LogGrows(s.sh, n.sh, c)
    ensures forall k :: 0 <= k < |s.sh.gateway| ==>
              PaidBack(State(n.sh, s.calls[c := n.call]), p, k) == PaidBack(s, p, k)
  {
  }

  /** The refund calls with an event after a step: those before, and the one the step commits. */
  lemma WithEventGrows(cfg: Config, s: State, c: CallId, n: Next)
    requires SharedInv(cfg, s.sh) && c in s.calls && LogGrows(s.sh, n.sh, c)
    requires n.sh.log == s.sh.log || (n.sh.log != [] && n.sh.log == s.sh.log + [n.sh.log[|n.sh.log| - 1]])
    ensures var s' := State(n.sh, s.calls[c := n.call]);
      forall k :: k in WithEvent(s') <==>
        k in WithEvent(s)
        || (k in RefundCalls(s') && |s.sh.log| < |n.sh.log| && IsWrite(n.sh.log[|s.sh.log|].op)
            && n.sh.log[|s.sh.log|].op.gi == k)
  {
    var s' := State(n.sh, s.calls[c := n.call]);
    forall k: nat
      ensures HasEvent(s.sh.log, k) ==> k < |s.sh.gateway|
      ensures HasEvent(n.sh.log, k) <==>
                HasEvent(s.sh.log, k)
                || (|s.sh.log| < |n.sh.log| && IsWrite(n.sh.log[|s.sh.log|].op) && n.sh.log[|s.sh.log|].op.gi == k)
    {
      if HasEvent(s.sh.log, k) {
        EventsBelow(cfg, s.sh, k);
      }
      if n.sh.log != s.sh.log {
        HasEventGrows(s.sh.log, n.sh.log[|s.sh.log|], k);
      }
    }
  }

  /** A step that commits no refund leaves the payouts with an event as they were. */
  lemma PayoutsQuiet(cfg: Config, s: State, c: CallId, n: Next, p: Id)
    requires SharedInv(cfg, s.sh) && Traced(s) && c in s.calls && n.call.req == s.calls[c].req
    requires LogGrows(s.sh, n.sh, c)
    requires n.sh.log == s.sh.log || (n.sh.log != [] && n.sh.log == s.sh.log + [n.sh.log[|n.sh.log| - 1]])
    requires |s.sh.log| < |n.sh.log| ==>
      !(IsWrite(n.sh.log[|s.sh.log|].op) && n.sh.log[|s.sh.log|].op.gi in RefundCalls(State(n.sh, s.calls)))
    ensures PaidBackBy(State(n.sh, s.calls[c := n.call]), p, WithEvent(State(n.sh, s.calls[c := n.call])))
            == PaidBackBy(s, p, WithEvent(s))
  {
    var s' := State(n.sh, s.calls[c := n.call]);
    WithEventGrows(cfg, s, c, n);
    assert WithEvent(s') == WithEvent(s);
    PaidBackKept(s, c, n, p);
    PaidBackSame(s, s', p, WithEvent(s));
  }

  /** A step that commits a refund adds its call. */
  lemma PayoutsAdded(cfg: Config, s: State, c: CallId, n: Next, p: Id)
    requires SharedInv(cfg, s.sh) && Traced(s) && c in s.calls && n.call.req == s.calls[c].req
    requires LogGrows(s.sh, n.sh, c) && |n.sh.log| == |s.sh.log| + 1
    requires n.sh.log == s.sh.log + [n.sh.log[|s.sh.log|]] && n.sh.log[|s.sh.log|].op.RefundOp?
    requires n.sh.log[|s.sh.log|].op.gi in RefundCalls(State(n.sh, s.calls))
    requires !HasEvent(s.sh.log, n.sh.log[|s.sh.log|].op.gi)
    ensures var s', k := State(n.sh, s.calls[c := n.call]), n.sh.log[|s.sh.log|].op.gi;
      PaidBackBy(s', p, WithEvent(s')) == PaidBackBy(s, p, WithEvent(s)) + PaidBack(s', p, k)
  {
    var s', k := State(n.sh, s.calls[c := n.call]), n.sh.log[|s.sh.log|].op.gi;
    WithEventGrows(cfg, s, c, n);
    assert WithEvent(s') == WithEvent(s) + {k};
    PaidBackKept(s, c, n, p);
    PaidBackSame(s, s', p, WithEvent(s));
    PaidBackAdd(s', p, WithEvent(s), k);
  }

  /** What the step adds to the payouts with an event it adds to the refunds. */
  lemma PayoutsGrow(cfg: Config, ls: seq<Label>, before: State, s: State, c: CallId, n: Next, p: Id)
    requires SharedInv(cfg, before.sh) && Traced(before) && c in before.calls && n.call.req == before.calls[c].req
    requires LogGrows(before.sh, n.sh, c) && |n.sh.log| == |before.sh.log| + 1
    requires n.sh.log == before.sh.log + [n.sh.log[|before.sh.log|]]
    requires Reaches(cfg, ls, s) && s == State(n.sh, before.calls[c := n.call])
    ensures PaidBackBy(s, p, WithEvent(s))
            == PaidBackBy(before, p, WithEvent(before)) + RefundedBy(n.sh.log[|before.sh.log|], p)
  {
    var i := |before.sh.log|;
    var e := s.sh.log[i];
    if IsWrite(e.op) {
      CommitsHaveGatewayCalls(cfg, ls, s, i);
    }
    if e.op.RefundOp? {
      NewEvent(cfg, ls, s, before.sh.log);
      EventPays(cfg, ls, s, i, p);
      PayoutsAdded(cfg, before, c, n, p);
    } else {
      PayoutsQuiet(cfg, before, c, n, p);
    }
  }

  lemma PayoutsFollow(cfg: Config, ls: seq<Label>, before: State, s: State, c: CallId, n: Next, p: Id)
    requires SharedInv(cfg, before.sh) && Traced(before) && c in before.calls && n.call.req == before.calls[c].req
    requires LogGrows(before.sh, n.sh, c)
    requires n.sh.log == before.sh.log
             || (n.sh.log != [] && n.sh.log == before.sh.log + [n.sh.log[|n.sh.log| - 1]])
    requires Reaches(cfg, ls, s) && s == State(n.sh, before.calls[c := n.call])
    requires Replay(cfg, s.sh.log) == Some(s.sh.db)
    requires PaidBackBy(before, p, WithEvent(before)) == Total(before.sh.db.refunds, p)
    ensures PaidBackBy(s, p, WithEvent(s)) == Total(s.sh.db.refunds, p)
  {
    if n.sh.log == before.sh.log {
      PayoutsQuiet(cfg, before, c, n, p);
    } else {
      var e := n.sh.log[|before.sh.log|];
      ReplayExtend(cfg, before.sh.log, e);
      EventAdds(cfg, before.sh.db, e, p);
      PayoutsGrow(cfg, ls, before, s, c, n, p);
    }
  }

  /** A step keeps the records and adds at most one event. */
  lemma StepAdds(cfg: Config, s: State, c: CallId, ch: Choice)
    requires StateInv(cfg, s) && c in s.calls && Step(cfg, s.sh, c, s.calls[c], ch).Some?
    ensures var n := Step(cfg, s.sh, c, s.calls[c], ch).value;
      && n.call.req == s.calls[c].req && LogGrows(s.sh, n.sh, c)
      && (n.sh.log == s.sh.log || (n.sh.log != [] && n.sh.log == s.sh.log + [n.sh.log[|n.sh.log| - 1]]))
  {
    ActKeeps(cfg, s, c, ch);
    StepKeepsRequest(cfg, s.sh, c, s.calls[c], ch);
    StepRecords(cfg, s.sh, c, s.calls[c], ch);
    assert Logs(c, s.calls[c], ch, s.sh, Step(cfg, s.sh, c, s.calls[c], ch).value.sh);
  }

  lemma PayoutsStart(cfg: Config, s: State, c: CallId, req: Request, p: Id)
    requires Traced(s) && c !in s.calls
    ensures var s' := s.(calls := s.calls[c := NewCall(s, req)]);
      PaidBackBy(s', p, WithEvent(s')) == PaidBackBy(s, p, WithEvent(s))
  {
    var s' := s.(calls := s.calls[c := NewCall(s, req)]);
    assert WithEvent(s') == WithEvent(s);
    PaidBackSame(s, s', p, WithEvent(s));
  }

  /** In every reachable state the refund calls with a committed event have paid back what the rows add up to. */
  lemma {:induction false} PaidBackIsTotal(cfg: Config, ls: seq<Label>, s: State, p: Id)
    requires Reaches(cfg, ls, s)
    ensures PaidBackBy(s, p, WithEvent(s)) == Total(s.sh.db.refunds, p)
    decreases |ls|
  {
    if ls == [] {
      assert s == INIT && Payouts(s, p, WithEvent(s)) == map[];
    } else {
      var m := |ls| - 1;
      var before := Run(cfg, INIT, ls[..m]).value;
      PaidBackIsTotal(cfg, ls[..m], before, p);
      RunKeeps(cfg, ls[..m], before);
      match ls[m]
      case Start(c, req) => PayoutsStart(cfg, before, c, req, p);
      case Act(c, ch) =>
        RunKeeps(cfg, ls, s);
        StepAdds(cfg, before, c, ch);
        PayoutsFollow(cfg, ls, before, s, c, Step(cfg, before.sh, c, before.calls[c], ch).value, p);
    }
  }

  // ---------- The cap at the gateway ----------

  /** A refund call that is neither committed nor broken off, and paid something back. */
  ghost predicate InFlight(cfg: Config, ls: seq<Label>, s: State, p: Id, k: nat) {
    k in Unbroken(cfg, ls, s) && !HasEvent(s.sh.log, k) && PaidBack(s, p, k) != 0
  }

  /** Such a call holds the lock of the payment, and what remained covers it. */
  lemma InFlightHolds(cfg: Config, ls: seq<Label>, s: State, p: Id, k: nat)
    requires Reaches(cfg, ls, s) && InFlight(cfg, ls, s, p, k)
    ensures p in s.sh.locks && s.sh.locks[p] == s.sh.gateway[k].cid && p in s.sh.db.payments
    ensures PaidBack(s, p, k) <= s.sh.db.payments[p].amount - Total(s.sh.db.refunds, p)
  {
    var c := s.sh.gateway[k].cid;
    RunKeeps(cfg, ls, s);
    FatesRun(cfg, ls, s);
    AskedRun(cfg, ls, s);
    WroteIffEvent(cfg, ls, s, k);
    assert Asked(s.sh, c);
    RefunderHolds(cfg, s.sh, c, s.calls[c], k);
  }

  lemma RefunderHolds(cfg: Config, sh: Shared, c: CallId, call: Call, k: nat)
    requires CallInv(cfg, sh, c, call) && call.req.RefundReq?
    requires !call.Finished() && !Undoing(call.pc) && !NotAsked(call.pc)
    requires k < |sh.gateway| && sh.gateway[k].cid == c
    requires forall j :: 0 <= j < |sh.gateway| && sh.gateway[j].cid == c ==> j == k
    ensures var a := call.req.refund;
      && a.paymentId in sh.locks && sh.locks[a.paymentId] == c && a.paymentId in sh.db.payments
      && sh.gateway[k].amount == a.amount <= sh.db.payments[a.paymentId].amount - Total(sh.db.refunds, a.paymentId)
  {
    assert RefundInTx(cfg, sh, c, call);
  }

  /** At most one refund call of a payment is in flight, and what it paid back was left over. */
  lemma InFlightFits(cfg: Config, ls: seq<Label>, s: State, p: Id, ks: set<nat>)
    requires Reaches(cfg, ls, s) && p in s.sh.db.payments
    requires ks == Unbroken(cfg, ls, s) - WithEvent(s)
    ensures PaidBackBy(s, p, ks) <= s.sh.db.payments[p].amount - Total(s.sh.db.refunds, p)
  {
    RefundCap(cfg, ls, s, p);
    if k :| k in ks && PaidBack(s, p, k) != 0 {
      InFlightHolds(cfg, ls, s, p, k);
      forall j | j in ks && j != k
        ensures PaidBack(s, p, j) == 0
      {
        if PaidBack(s, p, j) != 0 {
          InFlightHolds(cfg, ls, s, p, j);
          AskedRun(cfg, ls, s);
        }
      }
      SumSingle(Payouts(s, p, ks), k, Same());
    } else {
      SumZero(Payouts(s, p, ks), Same());
    }
  }

  /** A refund call with a committed event was not broken off. */
  lemma WithEventUnbroken(cfg: Config, ls: seq<Label>, s: State)
    requires Reaches(cfg, ls, s)
    ensures WithEvent(s) <= Unbroken(cfg, ls, s)
    ensures (forall c :: c in s.calls ==> s.calls[c].Finished()) ==> WithEvent(s) == Unbroken(cfg, ls, s)
  {
    forall k | k in RefundCalls(s)
      ensures k in WithEvent(s) ==> k in Unbroken(cfg, ls, s)
      ensures (forall c :: c in s.calls ==> s.calls[c].Finished()) ==>
                (k in WithEvent(s) <==> k in Unbroken(cfg, ls, s))
    {
      CommittedIffUnbroken(cfg, ls, s, k);
    }
  }

  /**
    The refund cap at the gateways: the successful refund calls of a payment made by calls that were not broken off pay
    back at most its amount, under any overlap and in every reachable state, and exactly what its rows say once all
    calls have ended. Anything beyond the amount was paid back by calls that were broken off after asking.
  */
  lemma PaidBackCap(cfg: Config, ls: seq<Label>, s: State, p: Id)
    requires Reaches(cfg, ls, s) && p in s.sh.db.payments
    ensures PaidBackBy(s, p, Unbroken(cfg, ls, s)) <= s.sh.db.payments[p].amount
    ensures (forall c :: c in s.calls ==> s.calls[c].Finished()) ==>
              PaidBackBy(s, p, Unbroken(cfg, ls, s)) == Total(s.sh.db.refunds, p)
    ensures PaidBackBy(s, p, RefundCalls(s)) - PaidBackBy(s, p, BrokenOff(cfg, ls, s)) <= s.sh.db.payments[p].amount
  {
    var open := Unbroken(cfg, ls, s) - WithEvent(s);
    PaidBackIsTotal(cfg, ls, s, p);
    WithEventUnbroken(cfg, ls, s);
    InFlightFits(cfg, ls, s, p, open);
    PaidBackUnion(s, p, WithEvent(s), open);
    assert WithEvent(s) + open == Unbroken(cfg, ls, s);
    PaidBackUnion(s, p, Unbroken(cfg, ls, s), BrokenOff(cfg, ls, s));
    assert Unbroken(cfg, ls, s) + BrokenOff(cfg, ls, s) == RefundCalls(s);
  }
}
