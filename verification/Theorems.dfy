/** What holds in every state of every run, however calls overlap, fail or vanish. */
module Theorems {
  import opened Base
  import opened Text
  import opened Sums
  import opened Routing
  import opened Domain
  import opened Ledger
  import opened Protocol
  import opened Refinement
  import opened Steps
  import opened Runs

  // ---------- Serializability ----------

  /**
    The committed tables are those of the atomic operations run one after the other in commit order; every answer a
    call returned is the answer its atomic operation gives at one point of that order, after the call began; and no
    call takes effect twice, not even one whose reply was lost.
  */
  lemma Serializable(cfg: Config, ls: seq<Label>, s: State)
    requires Reaches(cfg, ls, s)
    ensures Replay(cfg, s.sh.log) == Some(s.sh.db)
    ensures forall c :: c in s.calls && s.calls[c].pc.Done? && s.calls[c].pc.resp != Rejected(StoreFailure) ==>
              Answered(s.sh, c, s.calls[c], s.calls[c].pc.resp, s.calls[c].pc.at)
    ensures forall c :: c in s.calls ==> AtMostOneEvent(s.sh, c)
  {
    RunKeeps(cfg, ls, s);
    forall c | c in s.calls
      ensures AtMostOneEvent(s.sh, c)
      ensures s.calls[c].pc.Done? && s.calls[c].pc.resp != Rejected(StoreFailure) ==>
                Answered(s.sh, c, s.calls[c], s.calls[c].pc.resp, s.calls[c].pc.at)
    {
      AlwaysAtMostOne(cfg, s.sh, c, s.calls[c]);
      if s.calls[c].pc.Done? {
        FinishedMeans(cfg, s.sh, c, s.calls[c]);
      }
    }
  }

  lemma FinishedMeans(cfg: Config, sh: Shared, c: CallId, call: Call)
    requires CallInv(cfg, sh, c, call) && call.pc.Done?
    ensures DoneInv(sh, c, call, call.pc.resp, call.pc.at)
  {
  }

  /** What one state says about the calls of a later one. */
  ghost predicate CallsLater(early: State, late: State) {
    && (forall c :: c in early.calls && early.calls[c].Finished() ==>
          c in late.calls && late.calls[c] == early.calls[c])
    && (forall c :: c in late.calls && c !in early.calls ==> |early.sh.log| <= late.calls[c].start)
  }

  lemma MoveCalls(cfg: Config, early: State, s: State, l: Label)
    requires StateInv(cfg, s) && CallsLater(early, s) && |early.sh.log| <= |s.sh.log| && Move(cfg, s, l).Some?
    ensures CallsLater(early, Move(cfg, s, l).value)
  {
    if l.Act? {
      StepKeepsStart(cfg, s.sh, l.c, s.calls[l.c], l.ch);
    }
  }

  lemma StepKeepsStart(cfg: Config, sh: Shared, c: CallId, call: Call, ch: Choice)
    requires Step(cfg, sh, c, call, ch).Some?
    ensures Step(cfg, sh, c, call, ch).value.call.start == call.start
  {
  }

  lemma {:induction false} RunCalls(cfg: Config, ls: seq<Label>, n: nat, early: State, late: State)
    requires n <= |ls| && Reaches(cfg, ls[..n], early) && Reaches(cfg, ls, late)
    ensures CallsLater(early, late)
    decreases |ls|
  {
    if n == |ls| {
      assert ls[..n] == ls;
    } else {
      var m := |ls| - 1;
      var before := Run(cfg, INIT, ls[..m]).value;
      assert ls[..m][..n] == ls[..n];
      RunCalls(cfg, ls[..m], n, early, before);
      LogPrefix(cfg, ls[..m], n, early, before);
      RunKeeps(cfg, ls[..m], before);
      MoveCalls(cfg, early, before, ls[m]);
    }
  }

  /** The serial order respects real time: a call that returned before another began comes before it. */
  lemma RealTimeOrder(cfg: Config, ls: seq<Label>, n: nat, early: State, late: State, c: CallId, d: CallId)
    requires n <= |ls| && Reaches(cfg, ls[..n], early) && Reaches(cfg, ls, late)
    requires c in early.calls && early.calls[c].pc.Done? && early.calls[c].pc.resp != Rejected(StoreFailure)
    requires d !in early.calls && d in late.calls && late.calls[d].pc.Done?
    requires late.calls[d].pc.resp != Rejected(StoreFailure)
    ensures c in late.calls && late.calls[c] == early.calls[c]
    ensures late.calls[c].pc.at < late.calls[d].pc.at
  {
    RunCalls(cfg, ls, n, early, late);
    Serializable(cfg, ls[..n], early);
    Serializable(cfg, ls, late);
  }

  // ---------- Money ----------

  /**
    Under any overlap of refunds, and whatever UpdatePaymentStatus writes, the refund rows of a payment never exceed it.
    This is about rows only: what the gateways paid back is bounded by Payouts.PaidBackCap.
  */
  lemma RefundCap(cfg: Config, ls: seq<Label>, s: State, p: Id)
    requires Reaches(cfg, ls, s) && p in s.sh.db.payments
    ensures 0 <= Total(s.sh.db.refunds, p) <= s.sh.db.payments[p].amount
  {
    RunKeeps(cfg, ls, s);
    ReplayKeeps(cfg, s.sh.log);
  }

  /** Every committed payment and refund has exactly one audit row, of equal amount. */
  lemma LedgerComplete(cfg: Config, ls: seq<Label>, s: State)
    requires Reaches(cfg, ls, s)
    ensures Audited(s.sh.db)
  {
    RunKeeps(cfg, ls, s);
    ReplayKeeps(cfg, s.sh.log);
  }

  /** A payment without refund rows has refunded nothing. */
  lemma SumZeroOfNone(db: Db, p: Id)
    requires forall r :: r in db.refunds ==> GoodRefund(db.refunds[r], r)
    ensures 0 <= Total(db.refunds, p) && (RowCount(db, p) == 0 ==> Total(db.refunds, p) == 0)
  {
    SumNonNegative(db.refunds, CompletedOf(p));
    if RowCount(db, p) == 0 {
      forall r | r in db.refunds
        ensures db.refunds[r].paymentId != p
      {
        SumRemove(db.refunds, r, RowOf(p));
        SumNonNegative(db.refunds - {r}, RowOf(p));
      }
      SumZero(db.refunds, CompletedOf(p));
    }
  }

  /**
    What the audit rows show for a payment lies between minus its amount and its amount. It is negative exactly when
    something was refunded that was never charged, and balances exactly when what was refunded is what was charged.
    Without outside status updates it is never negative, and balances exactly for FAILED and REFUNDED payments.
  */
  lemma LedgerConserves(cfg: Config, ls: seq<Label>, s: State, p: Id)
    requires Reaches(cfg, ls, s) && p in s.sh.db.payments
    ensures -s.sh.db.payments[p].amount <= Net(s.sh.db, p) <= s.sh.db.payments[p].amount
    ensures Net(s.sh.db, p) < 0 <==> !Collected(s.sh.db, p) && Total(s.sh.db.refunds, p) > 0
    ensures Net(s.sh.db, p) == 0 <==>
              Total(s.sh.db.refunds, p) == if Collected(s.sh.db, p) then s.sh.db.payments[p].amount else 0
    ensures !cfg.admin ==>
              0 <= Net(s.sh.db, p) && (Net(s.sh.db, p) == 0 <==> s.sh.db.payments[p].status in {Failed, Refunded})
  {
    RunKeeps(cfg, ls, s);
    ReplayKeeps(cfg, s.sh.log);
    ReplayBalances(cfg, s.sh.log);
    assert Balanced(s.sh.db, p) && (!cfg.admin ==> StatusAgrees(s.sh.db, p));
    SumZeroOfNone(s.sh.db, p);
  }

  /** Committed statuses are the four settled ones, and say exactly how much was refunded. */
  lemma StatusMeansTotals(cfg: Config, ls: seq<Label>, s: State, p: Id)
    requires Reaches(cfg, ls, s) && !cfg.admin && p in s.sh.db.payments
    ensures var row, total := s.sh.db.payments[p], Total(s.sh.db.refunds, p);
      && row.status in {Completed, Failed, Refunded, RefundFailed}
      && (row.status == Refunded <==> total == row.amount)
      && (row.status in {Completed, RefundFailed} ==> total < row.amount)
      && (row.status == Failed ==> RowCount(s.sh.db, p) == 0 && total == 0)
      && (row.status == RefundFailed <==> FailedCount(s.sh.db, p) == 1)
  {
    RunKeeps(cfg, ls, s);
    ReplayKeeps(cfg, s.sh.log);
    assert StatusAgrees(s.sh.db, p);
    SumZeroOfNone(s.sh.db, p);
  }

  /**
    Over any stretch of a run rows are only added, and a FAILED, REFUNDED or REFUND_FAILED payment never changes again.
  */
  lemma FinalForever(cfg: Config, ls: seq<Label>, n: nat, early: State, late: State)
    requires n <= |ls| && Reaches(cfg, ls[..n], early) && Reaches(cfg, ls, late)
    ensures Extends(cfg, early.sh.db, late.sh.db)
  {
    RunKeeps(cfg, ls[..n], early);
    RunKeeps(cfg, ls, late);
    LogPrefix(cfg, ls, n, early, late);
    LaterExtends(cfg, late.sh.log, |early.sh.log|);
  }

  /** A payment of n units has at most n refund rows ever, at most one of them FAILED. */
  lemma BoundedHistory(cfg: Config, ls: seq<Label>, s: State, p: Id)
    requires Reaches(cfg, ls, s) && !cfg.admin && p in s.sh.db.payments
    ensures RowCount(s.sh.db, p) <= s.sh.db.payments[p].amount
    ensures FailedCount(s.sh.db, p) <= 1
  {
    RunKeeps(cfg, ls, s);
    ReplayKeeps(cfg, s.sh.log);
    assert StatusAgrees(s.sh.db, p);
  }

  /** The FAILED refund of a payment is the last that commits. */
  lemma NothingAfterFailedRefund(cfg: Config, ls: seq<Label>, s: State, i: nat, j: nat)
    requires Reaches(cfg, ls, s) && !cfg.admin && i < j < |s.sh.log|
    requires s.sh.log[i].op.RefundOp? && s.sh.log[j].op.RefundOp?
    requires s.sh.log[i].req.RefundReq? && s.sh.log[j].req.RefundReq?
    requires s.sh.log[i].req.refund.paymentId == s.sh.log[j].req.refund.paymentId
    ensures s.sh.log[i].op.res.success
  {
    RunKeeps(cfg, ls, s);
    FailedRefundIsLast(cfg, s.sh.log, i, j);
  }

  // ---------- Gateways ----------

  /** Nothing is committed that the gateway was not asked for: same call, same amount, same result. */
  lemma CommitsHaveGatewayCalls(cfg: Config, ls: seq<Label>, s: State, i: nat)
    requires Reaches(cfg, ls, s) && i < |s.sh.log| && (s.sh.log[i].op.ChargeOp? || s.sh.log[i].op.RefundOp?)
    ensures s.sh.log[i].op.gi < |s.sh.gateway|
    ensures var e, g := s.sh.log[i], s.sh.gateway[s.sh.log[i].op.gi];
      && g.cid == e.cid && g.result == e.op.res
      && (e.op.ChargeOp? ==> g.ChargeCall? && e.req.PayReq? && g.amount == e.req.pay.amount)
      && (e.op.RefundOp? ==> g.RefundCall? && e.req.RefundReq? && g.amount == e.req.refund.amount)
  {
    RunKeeps(cfg, ls, s);
    assert GatewayMatches(cfg, s.sh, s.sh.log[i]);
  }

  /** Event `i` is the charge that created payment `p`, whose row still names the gateway and charge it used. */
  ghost predicate ChargedAt(cfg: Config, log: seq<Event>, i: int, p: Id, row: Payment) {
    && 0 <= i < |log| && log[i].op.ChargeOp? && log[i].op.pid == p && log[i].req.PayReq?
    && GetGatewayOrDefault(cfg.router, log[i].req.pay.gateway).Ok?
    && row.gateway == GetGatewayOrDefault(cfg.router, log[i].req.pay.gateway).value.name
    && row.gatewayTxn == (if log[i].op.res.success then NullString(log[i].op.res.ref) else None)
    && row.currency == Upper(Trim(log[i].req.pay.currency))
  }

  lemma {:induction false} PaymentsAreCharged(cfg: Config, log: seq<Event>, p: Id) returns (i: int)
    requires Replay(cfg, log).Some? && p in Replay(cfg, log).value.payments
    ensures ChargedAt(cfg, log, i, p, Replay(cfg, log).value.payments[p])
    decreases |log|
  {
    var n := |log| - 1;
    var before, after := Replay(cfg, log[..n]).value, Replay(cfg, log).value;
    if p in before.payments {
      i := PaymentsAreCharged(cfg, log[..n], p);
      EventExtends(cfg, before, log[n]);
      assert log[i] == log[..n][i];
    } else {
      i := n;
      NewRowIsCharged(cfg, before, log[n], p);
    }
  }

  lemma NewRowIsCharged(cfg: Config, db: Db, e: Event, p: Id)
    requires ApplyEvent(cfg, db, e).Some? && p !in db.payments && p in ApplyEvent(cfg, db, e).value.payments
    ensures ChargedAt(cfg, [e], 0, p, ApplyEvent(cfg, db, e).value.payments[p])
  {
  }

  /**
    The unlocked read of the payment is harmless: whatever happened between it and the lock, a committed refund was
    sent to the very gateway that took the charge, against that charge, in the currency of the charge.
  */
  lemma RefundedWhereCharged(cfg: Config, ls: seq<Label>, s: State, j: nat) returns (i: int)
    requires ValidRouter(cfg.router)
    requires Reaches(cfg, ls, s) && j < |s.sh.log| && s.sh.log[j].op.RefundOp?
    ensures 0 <= i < |s.sh.log| && s.sh.log[i].op.ChargeOp? && s.sh.log[j].req.RefundReq?
    ensures s.sh.log[i].op.pid == s.sh.log[j].req.refund.paymentId
    ensures s.sh.log[i].op.gi < |s.sh.gateway| && s.sh.log[j].op.gi < |s.sh.gateway|
    ensures var charge, refund := s.sh.gateway[s.sh.log[i].op.gi], s.sh.gateway[s.sh.log[j].op.gi];
      && charge.ChargeCall? && refund.RefundCall?
      && refund.gateway == charge.gateway && refund.currency == charge.currency
      && refund.chargeRef == (if charge.result.success then NullString(charge.result.ref) else None)
  {
    RunKeeps(cfg, ls, s);
    assert GatewayMatches(cfg, s.sh, s.sh.log[j]);
    i := PaymentsAreCharged(cfg, s.sh.log, s.sh.log[j].req.refund.paymentId);
    assert GatewayMatches(cfg, s.sh, s.sh.log[i]);
    var asked := s.sh.log[i].req.pay.gateway;
    ResolvesBack(cfg.router, asked, GetGatewayOrDefault(cfg.router, asked).value);
  }

  // ---------- Idempotency keys ----------

  /** No two committed payments share a key. */
  lemma KeysNeverShared(cfg: Config, ls: seq<Label>, s: State)
    requires Reaches(cfg, ls, s)
    ensures KeysUnique(s.sh.db)
  {
    RunKeeps(cfg, ls, s);
    ReplayKeeps(cfg, s.sh.log);
  }

  lemma FoundIffTrimmed(db: Db, key: string, found: Option<Id>)
    requires WellFormed(db) && NullString(key).Some? && !KeyFree(db, NullString(key).value) && KeyLookup(db, key, found)
    ensures found.Some? <==> Trimmed(key)
  {
    TrimmedIffFixed(key);
    if found.Some? {
      assert GoodPayment(db.payments[found.value], found.value);
    }
  }

  /**
    Keys are stored trimmed and looked up as given: once the key of a request is taken, the lookup finds the row that
    took it exactly when the key equals its own trim, and otherwise finds nothing.
  */
  lemma LookupFindsIffTrimmed(cfg: Config, ls: seq<Label>, s: State, key: string, found: Option<Id>)
    requires Reaches(cfg, ls, s) && NullString(key).Some? && !KeyFree(s.sh.db, NullString(key).value)
    requires KeyLookup(s.sh.db, key, found)
    ensures found.Some? <==> Trimmed(key)
    ensures found.Some? ==>
              forall q :: q in s.sh.db.payments && s.sh.db.payments[q].key == Some(key) ==> q == found.value
  {
    RunKeeps(cfg, ls, s);
    ReplayWellFormed(cfg, s.sh.log);
    FoundIffTrimmed(s.sh.db, key, found);
  }

  /**
    A call that loses the race to insert a trimmed key gets the winner's row, unless the store fails or it vanishes.
  */
  lemma LoserGetsWinner(cfg: Config, ls: seq<Label>, s: State, c: CallId, ch: Choice)
    requires Reaches(cfg, ls, s) && c in s.calls && s.calls[c].pc.PayRecover? && s.calls[c].req.PayReq?
    requires Trimmed(s.calls[c].req.pay.key) && ch != Crash && ch != Fault
    requires Step(cfg, s.sh, c, s.calls[c], ch).Some?
    ensures var pc := Step(cfg, s.sh, c, s.calls[c], ch).value.call.pc;
      && pc.Done? && pc.resp.PaymentFound? && pc.resp.found.key == Some(s.calls[c].req.pay.key)
      && pc.resp.found.id in s.sh.db.payments && s.sh.db.payments[pc.resp.found.id] == pc.resp.found
  {
    RunKeeps(cfg, ls, s);
    assert CallInv(cfg, s.sh, c, s.calls[c]);
    LookupFindsIffTrimmed(cfg, ls, s, s.calls[c].req.pay.key, ch.row);
  }
}
