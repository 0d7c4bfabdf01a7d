/** Where the guarantees end: for each one its exact condition, with runs in which it fails without it. */
module Limits {
  import opened Base
  import opened Text
  import opened Sums
  import opened Routing
  import opened Domain
  import opened Ledger
  import opened Protocol
  import opened Refinement
  import opened Runs
  import opened Theorems
  import opened Scenarios
  import opened Serial
  import opened SerialRefunds
  import opened Balance
  import opened Effects
  import opened Charges
  import opened Payouts

  const SUCCESS := GatewayResult(true, "", "", "", "")
  const FAILURE := GatewayResult(false, "", "", "", "")

  /** A payment request that may be made and that some gateway takes, which is found again for refunds. */
  predicate Payable(cfg: Config, a: PayArgs) {
    && ValidPay(a) && FitsNumeric(a.amount)
    && (cfg.trimmedKeys && NullString(a.key).Some? ==> Trimmed(a.key))
    && ValidRouter(cfg.router) && GetGatewayOrDefault(cfg.router, a.gateway).Ok?
  }

  // ---------- A payment to start from ----------

  /** Payment `p`, paid as `pay` asked, can be refunded; `refunded` of it is, and no call holds it. */
  ghost predicate Open(cfg: Config, s: State, pay: PayArgs, p: Id, refunded: int) {
    && GetGatewayOrDefault(cfg.router, pay.gateway).Ok? && p in s.sh.db.payments && p !in s.sh.locks
    && var row := s.sh.db.payments[p];
    && row.gateway == GetGatewayOrDefault(cfg.router, pay.gateway).value.name && row.amount == pay.amount
    && row.status == Completed && Total(s.sh.db.refunds, p) == refunded
  }

  /** No lock and no key is held, and every call has ended. */
  ghost predicate Quiet(s: State) {
    s.sh.locks == map[] && s.sh.keys == map[] && forall c :: c in s.calls ==> s.calls[c].Finished()
  }

  lemma QuietAfter(s: State, s': State, c: CallId)
    requires Alone(s, s', c) && HoldsNothing(s'.sh, c) && s'.calls[c].Finished()
    requires forall p :: p in s.sh.locks ==> s.sh.locks[p] == c
    requires forall k :: k in s.sh.keys ==> s.sh.keys[k] == c
    requires forall d :: d in s.calls && d != c ==> s.calls[d].Finished()
    ensures Quiet(s')
  {
  }

  /** The state after one payment call, alone, from the start. */
  ghost predicate Funded(cfg: Config, s: State, pay: PayArgs, p: Payment, tid: Id, res: GatewayResult) {
    && PaidAs(EMPTY_DB, s.sh.db, cfg.router, pay, p, tid, res) && Quiet(s) && s.calls.Keys == {0} && |s.sh.log| == 1
    && s.sh.log[0].op.ChargeOp? && s.calls[0].req == s.sh.log[0].req == PayReq(pay) && s.sh.log[0].cid == 0
  }

  /** The first call of a run, at its gateway. */
  lemma Quotes(cfg: Config, pay: PayArgs) returns (ls: seq<Label>, s: State)
    requires Payable(cfg, pay)
    ensures Reaches(cfg, ls, s) && FaultFree(ls) && AtGateway(s, 0, pay) && s.calls.Keys == {0}
    ensures Draws(INIT.sh, s.sh)
  {
    assert Run(cfg, INIT, []) == Some(INIT);
    ls, s := Approaches(cfg, [], INIT, 0, pay, None);
  }

  lemma Funds(cfg: Config, pay: PayArgs, res: GatewayResult) returns (ls: seq<Label>, s: State, p: Payment, tid: Id)
    requires Payable(cfg, pay)
    ensures Reaches(cfg, ls, s) && FaultFree(ls) && Funded(cfg, s, pay, p, tid, res)
  {
    var s0;
    ls, s0 := Quotes(cfg, pay);
    ls, s, p, tid := Pays(cfg, ls, s0, 0, pay, res);
    QuietAfter(s0, s, 0);
  }

  lemma FundedIsOpen(cfg: Config, s: State, pay: PayArgs, p: Payment, tid: Id)
    requires Funded(cfg, s, pay, p, tid, SUCCESS)
    ensures Open(cfg, s, pay, p.id, 0)
  {
  }

  // ---------- Payments of one order ----------

  /** Two calls for one order, both past their lookups. */
  lemma BothApproach(cfg: Config, a: PayArgs) returns (ls: seq<Label>, s: State)
    requires !cfg.serialPay && Payable(cfg, a) && a.key == ""
    ensures Reaches(cfg, ls, s) && FaultFree(ls) && AtGateway(s, 0, a) && AtGateway(s, 1, a)
    ensures Draws(INIT.sh, s.sh) && s.calls.Keys == {0, 1}
  {
    var s0;
    ls, s0 := Quotes(cfg, a);
    ls, s := Approaches(cfg, ls, s0, 1, a, None);
  }

  /** Two calls for one order that overlap can both be charged. */
  lemma OverlapChargesTwice(cfg: Config, a: PayArgs) returns (ls: seq<Label>, s: State)
    requires !cfg.serialPay && Payable(cfg, a)
    ensures Reaches(cfg, ls, s) && FaultFree(ls) && Quiet(s) && !OneLive(s.sh.db)
  {
    var s0, s1, p, q, t, u;
    var b := a.(key := "");
    ls, s0 := BothApproach(cfg, b);
    ls, s1, p, t := Pays(cfg, ls, s0, 0, b, SUCCESS);
    ls, s, q, u := Pays(cfg, ls, s1, 1, b, SUCCESS);
    assert BothLive(s.sh.db.payments[p.id], s.sh.db.payments[q.id]);
    QuietAfter(s1, s, 1);
  }

  /** The only payment is one of order `orderId` that was charged and set to FAILED from outside. */
  ghost predicate Shelved(s: State, orderId: string, p: Id) {
    && Quiet(s) && s.sh.db.payments.Keys == {p} && s.sh.db.payments[p].orderId == orderId
    && s.sh.db.payments[p].status == Failed && Collected(s.sh.db, p)
  }

  lemma Shelves(cfg: Config, a: PayArgs) returns (ls: seq<Label>, s: State, p: Id)
    requires cfg.admin && !cfg.settled && Payable(cfg, a)
    ensures Reaches(cfg, ls, s) && FaultFree(ls) && Shelved(s, a.orderId, p) && s.calls.Keys == {0, 1}
  {
    var s0, row, tid;
    ls, s0, row, tid := Funds(cfg, a, SUCCESS);
    p := row.id;
    ls, s := Updates(cfg, ls, s0, 1, p, Failed);
    assert tid in s.sh.db.txns;
  }

  /** A second call for the order is at its gateway, and the first payment is COMPLETED again. */
  lemma Revives(cfg: Config, a: PayArgs) returns (ls: seq<Label>, s: State, p: Id)
    requires cfg.admin && !cfg.settled && Payable(cfg, a) && a.key == ""
    ensures Reaches(cfg, ls, s) && FaultFree(ls) && AtGateway(s, 2, a)
    ensures p in s.sh.db.payments && s.sh.db.payments[p].orderId == a.orderId && s.sh.db.payments[p].status == Completed
  {
    var s0, s1;
    ls, s0, p := Shelves(cfg, a);
    ls, s1 := Approaches(cfg, ls, s0, 2, a, Some(p));
    ls, s := Updates(cfg, ls, s1, 3, p, Completed);
  }

  lemma LastNotPermitted(cfg: Config, log: seq<Event>, e: Event)
    requires Replay(cfg, log).Some? && !ChargePermitted(Replay(cfg, log).value, e)
    ensures !EachEvent(cfg, log + [e], ChargePermitted)
  {
    assert (log + [e])[..|log|] == log;
  }

  /** A charge that commits while its order has a live payment. */
  lemma ChargesLive(cfg: Config, ls: seq<Label>, s: State, c: CallId, a: PayArgs, p: Id)
    returns (ls': seq<Label>, s': State)
    requires Reaches(cfg, ls, s) && AtGateway(s, c, a) && FitsNumeric(a.amount) && a.key == ""
    requires p in s.sh.db.payments && s.sh.db.payments[p].orderId == a.orderId
    requires s.sh.db.payments[p].status == Completed
    ensures Follows(cfg, ls, ls', s') && !OneLive(s'.sh.db) && !EachEvent(cfg, s'.sh.log, ChargePermitted)
  {
    var q, tid;
    RunKeeps(cfg, ls, s);
    ls', s', q, tid := Pays(cfg, ls, s, c, a, SUCCESS);
    assert BothLive(s'.sh.db.payments[p], s'.sh.db.payments[q.id]);
    LastNotPermitted(cfg, s.sh.log, s'.sh.log[|s.sh.log|]);
  }

  /**
    A payment that a status update takes out and another brings back leaves its order with two live payments, even if
    calls do not overlap and only charged payments are updated; the second charge is not permitted when it takes effect.
  */
  lemma ReviveChargesTwice(cfg: Config, a: PayArgs) returns (ls: seq<Label>, s: State)
    requires cfg.admin && !cfg.settled && Payable(cfg, a)
    ensures Reaches(cfg, ls, s) && FaultFree(ls) && !OneLive(s.sh.db) && !EachEvent(cfg, s.sh.log, ChargePermitted)
  {
    var s0, p;
    ls, s0, p := Revives(cfg, a.(key := ""));
    ls, s := ChargesLive(cfg, ls, s0, 2, a.(key := ""), p);
  }

  /**
    An order keeps at most one live payment in every run exactly when callers serialize the payments of an order, and
    status updates are not made or write no refundable status.
  */
  lemma OneLiveIffSerialAndSettled(cfg: Config, a: PayArgs)
    requires Payable(cfg, a)
    ensures (forall ls, s :: Reaches(cfg, ls, s) ==> OneLive(s.sh.db)) <==> cfg.serialPay && UpdatesSettle(cfg)
  {
    if !UpdatesSettle(cfg) {
      var ls, s := ReviveChargesTwice(cfg, a);
    } else if !cfg.serialPay {
      var ls, s := OverlapChargesTwice(cfg, a);
    } else {
      forall ls, s | Reaches(cfg, ls, s)
        ensures OneLive(s.sh.db)
      {
        AlwaysOneLive(cfg, ls, s);
      }
    }
  }

  lemma AlwaysOneLive(cfg: Config, ls: seq<Label>, s: State)
    requires cfg.serialPay && UpdatesSettle(cfg) && Reaches(cfg, ls, s)
    ensures OneLive(s.sh.db)
  {
    forall p, q | p in s.sh.db.payments && q in s.sh.db.payments
      && BothLive(s.sh.db.payments[p], s.sh.db.payments[q])
      ensures p == q
    {
      OneLivePerOrder(cfg, ls, s, p, q);
    }
  }

  /** Two live payments of an order mean that some charge was not permitted. */
  lemma TwiceIsNotPermitted(cfg: Config, ls: seq<Label>, s: State)
    requires UpdatesSettle(cfg) && Reaches(cfg, ls, s) && !OneLive(s.sh.db)
    ensures !EachEvent(cfg, s.sh.log, ChargePermitted)
  {
    RunKeeps(cfg, ls, s);
    SettledRun(cfg, ls, s);
    if EachEvent(cfg, s.sh.log, ChargePermitted) {
      PermittedIsEnough(cfg, s.sh.log);
    }
  }

  /** Every charge takes effect only while its order is unpaid, in every run, under exactly the same condition. */
  lemma PermittedIffSerialAndSettled(cfg: Config, a: PayArgs)
    requires Payable(cfg, a)
    ensures (forall ls, s :: Reaches(cfg, ls, s) ==> EachEvent(cfg, s.sh.log, ChargePermitted))
            <==> cfg.serialPay && UpdatesSettle(cfg)
  {
    if !UpdatesSettle(cfg) {
      var ls, s := ReviveChargesTwice(cfg, a);
    } else if !cfg.serialPay {
      var ls, s := OverlapChargesTwice(cfg, a);
      TwiceIsNotPermitted(cfg, ls, s);
    } else {
      forall ls, s | Reaches(cfg, ls, s)
        ensures EachEvent(cfg, s.sh.log, ChargePermitted)
      {
        PermittedRun(cfg, ls, s);
      }
    }
  }

  // ---------- Refunds ----------

  /** Refund `a` passes every check. */
  lemma Accepts(cfg: Config, s: State, pay: PayArgs, a: RefundArgs, refunded: int)
    requires Payable(cfg, pay) && Open(cfg, s, pay, a.paymentId, refunded) && a.amount <= pay.amount - refunded
    ensures RefundCheck(cfg.router, s.sh.db, a).Ok?
  {
    ResolvesBack(cfg.router, pay.gateway, GetGatewayOrDefault(cfg.router, pay.gateway).value);
  }

  /** What is refunded of the payment after a successful refund. */
  lemma RefundAdds(db: Db, db': Db, a: RefundArgs, r: Refund, tid: Id)
    requires RefundedAs(db, db', a, r, tid, SUCCESS)
    ensures Total(db'.refunds, a.paymentId) == Total(db.refunds, a.paymentId) + a.amount
    ensures db'.refunds == db.refunds[r.id := r] && r.correlationId == NullString(a.correlationId)
    ensures a.paymentId in db'.payments && Collected(db', a.paymentId) == Collected(db, a.paymentId)
    ensures var st := StatusAfter(a.amount, db.payments[a.paymentId].amount - Total(db.refunds, a.paymentId), SUCCESS);
      db'.payments[a.paymentId] == db.payments[a.paymentId].(status := st)
  {
    SumInsert(db.refunds, r.id, r, CompletedOf(a.paymentId));
    CollectedBy(db, db'.txns[tid], db', a.paymentId);
  }

  /** A refund of one unit under correlation id `corr`. */
  function UnitRefund(p: Id, corr: string): RefundArgs {
    RefundArgs(p, 1, "", "", corr)
  }

  /** Call `c` refunds one unit, and the payment stays open for more. */
  lemma RefundsUnit(cfg: Config, ls: seq<Label>, s: State, c: CallId, pay: PayArgs, p: Id, corr: string, refunded: int)
    returns (ls': seq<Label>, s': State, r: Refund)
    requires Payable(cfg, pay) && refunded + 1 < pay.amount
    requires Reaches(cfg, ls, s) && AtRead(s, c, UnitRefund(p, corr)) && Open(cfg, s, pay, p, refunded)
    ensures Follows(cfg, ls, ls', s') && Open(cfg, s', pay, p, refunded + 1) && Ends(s, s', c)
    ensures r.id !in s.sh.db.refunds && s'.sh.db.refunds == s.sh.db.refunds[r.id := r]
    ensures r.correlationId == NullString(corr)
  {
    var a, tid := UnitRefund(p, corr), 0;
    Accepts(cfg, s, pay, a, refunded);
    ls', s', r, tid := Refunds(cfg, ls, s, c, a, SUCCESS);
    RefundAdds(s.sh.db, s'.sh.db, a, r, tid);
  }

  lemma SharedId(db: Db, r: Refund, q: Refund)
    requires r.id in db.refunds && q.id in db.refunds && r.id != q.id && db.refunds[r.id] == r && db.refunds[q.id] == q
    requires r.correlationId.Some? && r.correlationId == q.correlationId
    ensures !CorrelationsUnique(db)
  {
  }

  /** Two refund calls of one id, both past their lookups. */
  lemma BothEnter(cfg: Config, pay: PayArgs, corr: string) returns (ls: seq<Label>, s: State, p: Id)
    requires !cfg.serialRefund && Payable(cfg, pay) && Trimmed(corr) && corr != ""
    ensures Reaches(cfg, ls, s) && FaultFree(ls) && Open(cfg, s, pay, p, 0)
    ensures AtRead(s, 1, UnitRefund(p, corr)) && AtRead(s, 2, UnitRefund(p, corr))
  {
    var s0, s1, row, tid;
    ls, s0, row, tid := Funds(cfg, pay, SUCCESS);
    p := row.id;
    FundedIsOpen(cfg, s0, pay, row, tid);
    ls, s1 := Enters(cfg, ls, s0, 1, UnitRefund(p, corr));
    ls, s := Enters(cfg, ls, s1, 2, UnitRefund(p, corr));
  }

  /** Two calls that overlap each refund under the same trimmed id. */
  lemma OverlapRefundsTwice(cfg: Config, pay: PayArgs) returns (ls: seq<Label>, s: State)
    requires !cfg.serialRefund && Payable(cfg, pay) && pay.amount >= 3
    ensures Reaches(cfg, ls, s) && FaultFree(ls) && !CorrelationsUnique(s.sh.db)
  {
    var s0, s1, p, r, q;
    StoredTrimmed();
    ls, s0, p := BothEnter(cfg, pay, "k");
    ls, s1, r := RefundsUnit(cfg, ls, s0, 1, pay, p, "k", 0);
    ls, s, q := RefundsUnit(cfg, ls, s1, 2, pay, p, "k", 1);
    SharedId(s.sh.db, r, q);
  }

  lemma StoredTrimmed()
    ensures Trim(" k") == "k" && !Trimmed(" k") && Trimmed("k") && NullString(" k") == NullString("k") == Some("k")
  {
    assert " k"[1..] == "k";
    TrimmedIffFixed("k");
  }

  /** A first refund of one unit is made under the id " k". */
  lemma RefundsUntrimmed(cfg: Config, pay: PayArgs) returns (ls: seq<Label>, s: State, p: Id, r: Refund)
    requires !cfg.trimmedIds && Payable(cfg, pay) && pay.amount >= 3
    ensures Reaches(cfg, ls, s) && FaultFree(ls) && Open(cfg, s, pay, p, 1) && s.calls.Keys == {0, 1} && Quiet(s)
    ensures s.sh.db.refunds == map[r.id := r] && r.correlationId == Some("k")
  {
    var s0, s1, row, tid;
    StoredTrimmed();
    ls, s0, row, tid := Funds(cfg, pay, SUCCESS);
    p := row.id;
    FundedIsOpen(cfg, s0, pay, row, tid);
    ls, s1 := Enters(cfg, ls, s0, 1, UnitRefund(p, " k"));
    ls, s, r := RefundsUnit(cfg, ls, s1, 1, pay, p, " k", 0);
    QuietAfter(s1, s, 1);
  }

  /** An id that is not trimmed is not found again: two calls, one after the other, each refund under it. */
  lemma UntrimmedRefundsTwice(cfg: Config, pay: PayArgs) returns (ls: seq<Label>, s: State)
    requires !cfg.trimmedIds && Payable(cfg, pay) && pay.amount >= 3
    ensures Reaches(cfg, ls, s) && FaultFree(ls) && !CorrelationsUnique(s.sh.db)
  {
    var s0, s1, p, r, q;
    StoredTrimmed();
    ls, s0, p, r := RefundsUntrimmed(cfg, pay);
    ls, s1 := Enters(cfg, ls, s0, 2, UnitRefund(p, " k"));
    ls, s, q := RefundsUnit(cfg, ls, s1, 2, pay, p, " k", 1);
    SharedId(s.sh.db, r, q);
  }

  /**
    No two refunds share a correlation id in any run exactly when correlation ids are trimmed and refund calls of one id
    do not overlap.
  */
  lemma OneRefundIffSerialAndTrimmed(cfg: Config, pay: PayArgs)
    requires Payable(cfg, pay)
    ensures (forall ls, s :: Reaches(cfg, ls, s) ==> CorrelationsUnique(s.sh.db))
            <==> cfg.serialRefund && cfg.trimmedIds
  {
    if cfg.serialRefund && cfg.trimmedIds {
      forall ls, s | Reaches(cfg, ls, s)
        ensures CorrelationsUnique(s.sh.db)
      {
        OneRefundPerCorrelation(cfg, ls, s);
      }
    } else if !cfg.serialRefund {
      var ls, s := OverlapRefundsTwice(cfg, pay.(amount := 3));
    } else {
      var ls, s := UntrimmedRefundsTwice(cfg, pay.(amount := 3));
    }
  }

  // ---------- UpdatePaymentStatus and the ledger ----------

  /** A payment whose charge failed is set to COMPLETED from outside. */
  lemma Forges(cfg: Config, pay: PayArgs) returns (ls: seq<Label>, s: State, p: Id)
    requires cfg.admin && !cfg.careful && !cfg.settled && Payable(cfg, pay)
    ensures Reaches(cfg, ls, s) && FaultFree(ls) && s.calls.Keys == {0, 1}
    ensures Open(cfg, s, pay, p, 0) && !Collected(s.sh.db, p)
  {
    var s0, row, tid;
    ls, s0, row, tid := Funds(cfg, pay, FAILURE);
    p := row.id;
    ls, s := Updates(cfg, ls, s0, 1, p, Completed);
    assert s.sh.db.refunds == map[];
  }

  /**
    A payment whose charge failed, set to COMPLETED by UpdatePaymentStatus, can be refunded: a run whose audit rows show
    money paid out that never came in.
  */
  lemma StatusUpdateBreaksLedger(cfg: Config, pay: PayArgs) returns (ls: seq<Label>, s: State, p: Id)
    requires cfg.admin && !cfg.careful && !cfg.settled && Payable(cfg, pay)
    ensures Reaches(cfg, ls, s) && FaultFree(ls) && p in s.sh.db.payments && Net(s.sh.db, p) == -pay.amount
  {
    var s0, s1, r, u;
    ls, s0, p := Forges(cfg, pay);
    var a := RefundArgs(p, pay.amount, "", "", "");
    ls, s1 := Enters(cfg, ls, s0, 2, a);
    Accepts(cfg, s1, pay, a, 0);
    ls, s, r, u := Refunds(cfg, ls, s1, 2, a, SUCCESS);
    RefundAdds(s1.sh.db, s.sh.db, a, r, u);
    NetFormula(cfg, ls, s, p);
  }

  /**
    No balance is negative in any run exactly when UpdatePaymentStatus is not called, or writes COMPLETED and
    REFUND_PENDING only to payments that were charged, or not at all.
  */
  lemma SolventIffCareful(cfg: Config, pay: PayArgs)
    requires Payable(cfg, pay)
    ensures (forall ls, s, p :: Reaches(cfg, ls, s) && p in s.sh.db.payments ==> 0 <= Net(s.sh.db, p))
            <==> !cfg.admin || cfg.careful || cfg.settled
  {
    if !cfg.admin || cfg.careful || cfg.settled {
      forall ls, s, p | Reaches(cfg, ls, s) && p in s.sh.db.payments
        ensures 0 <= Net(s.sh.db, p)
      {
        CarefulBalance(cfg, ls, s, p);
      }
    } else {
      var ls, s, p := StatusUpdateBreaksLedger(cfg, pay);
    }
  }


  // ---------- Gateway effects without a row ----------

  /** Gateway call `k` is a successful charge of a call that has ended, and no event records it. */
  ghost predicate ChargedInVain(s: State, k: nat) {
    && k < |s.sh.gateway| && s.sh.gateway[k].ChargeCall? && s.sh.gateway[k].result.success
    && !HasEvent(s.sh.log, k) && s.sh.gateway[k].cid in s.calls && s.calls[s.sh.gateway[k].cid].Finished()
  }

  /** A successful charge whose transaction cannot begin: the call gives up, and nothing is committed for it. */
  lemma FaultChargesInVain(cfg: Config, pay: PayArgs) returns (ls: seq<Label>, s: State)
    requires Payable(cfg, pay)
    ensures Reaches(cfg, ls, s) && Quiet(s) && s.calls.Keys == {0} && s.sh.log == [] && s.sh.db == EMPTY_DB
    ensures |s.sh.gateway| == 1 && ChargedInVain(s, 0) && KeyOf(s, 0) == NullString(pay.key)
  {
    var s0, s1;
    ls, s0 := Quotes(cfg, pay);
    ls, s1 := Asks(cfg, ls, s0, 0, pay, SUCCESS);
    ls, s := CannotBegin(cfg, ls, s1, 0);
    QuietAfter(s1, s, 0);
  }

  /** A call that found its key committed was charged in vain. */
  lemma LoserInVain(cfg: Config, ls: seq<Label>, s: State, s': State, c: CallId, a: PayArgs)
    requires Reaches(cfg, ls, s) && Loses(s, s', c, a, SUCCESS)
    ensures ChargedInVain(s', |s.sh.gateway|)
  {
    var k := |s.sh.gateway|;
    RunKeeps(cfg, ls, s);
    HasEventGrows(s.sh.log, s'.sh.log[|s.sh.log|], k);
    if HasEvent(s.sh.log, k) {
      EventsBelow(cfg, s.sh, k);
    }
  }

  /** A charge with an event and a later one under the same key. */
  lemma ChargedAgain(cfg: Config, ls: seq<Label>, s: State, i: nat, k: nat)
    requires Reaches(cfg, ls, s) && i < |s.sh.log| && s.sh.log[i].op.ChargeOp? && s.sh.log[i].req.PayReq?
    requires s.sh.log[i].op.gi < k < |s.sh.gateway|
    requires KeyOf(s, k).Some? && KeyOf(s, k) == NullString(s.sh.log[i].req.pay.key)
    ensures !ChargedOnce(cfg, ls, s)
  {
    var j := s.sh.log[i].op.gi;
    CommitsHaveGatewayCalls(cfg, ls, s, i);
    RequestsRun(cfg, ls, s);
    assert HasEvent(s.sh.log, j);
    CommittedIffUnbroken(cfg, ls, s, j);
    assert KeyOf(s, j) == KeyOf(s, k);
  }

  /** Another order under the same key. */
  function OtherOrder(a: PayArgs): PayArgs {
    a.(orderId := a.orderId + "x")
  }

  /** Two calls with one trimmed key, for different orders, both past their lookups. */
  lemma BothQuote(cfg: Config, a: PayArgs) returns (ls: seq<Label>, s: State)
    requires !cfg.serialKeys && Payable(cfg, a)
    ensures Reaches(cfg, ls, s) && FaultFree(ls) && AtGateway(s, 0, a) && AtGateway(s, 1, OtherOrder(a))
    ensures Draws(INIT.sh, s.sh) && s.calls.Keys == {0, 1}
  {
    var s0;
    ls, s0 := Quotes(cfg, a);
    assert |OtherOrder(a).orderId| != |a.orderId|;
    ls, s := Approaches(cfg, ls, s0, 1, OtherOrder(a), None);
  }

  /** The first of them commits its key. */
  lemma FirstWins(cfg: Config, a: PayArgs) returns (ls: seq<Label>, s: State)
    requires !cfg.serialKeys && Payable(cfg, a) && NullString(a.key).Some?
    ensures Reaches(cfg, ls, s) && FaultFree(ls) && AtGateway(s, 1, OtherOrder(a)) && KeyCommitted(s.sh, a.key)
    ensures |s.sh.log| == 1 && s.sh.log[0].op.ChargeOp? && s.sh.log[0].req == PayReq(a)
    ensures s.calls.Keys == {0, 1} && s.calls[0].Finished() && s.sh.locks == map[] && s.sh.keys == map[]
  {
    var s0, p, tid;
    ls, s0 := BothQuote(cfg, a);
    ls, s, p, tid := Pays(cfg, ls, s0, 0, a, SUCCESS);
    assert s.sh.db.payments[p.id].key == NullString(a.key);
  }

  /**
    Two overlapping calls with one trimmed key are both charged. The loser finds its key committed, and no row records
    its charge, although nothing failed.
  */
  lemma RaceChargesInVain(cfg: Config, a: PayArgs) returns (ls: seq<Label>, s: State, k: nat)
    requires !cfg.serialKeys && Payable(cfg, a)
    ensures Reaches(cfg, ls, s) && FaultFree(ls) && Quiet(s) && ChargedInVain(s, k) && !ChargedOnce(cfg, ls, s)
  {
    var s0;
    var b := a.(key := "k");
    StoredTrimmed();
    ls, s0 := FirstWins(cfg, b);
    k := |s0.sh.gateway|;
    CommitsHaveGatewayCalls(cfg, ls, s0, 0);
    var ls0 := ls;
    ls, s := ChargesInVain(cfg, ls, s0, 1, OtherOrder(b), SUCCESS);
    QuietAfter(s0, s, 1);
    LoserInVain(cfg, ls0, s0, s, 1, OtherOrder(b));
    ChargedAgain(cfg, ls, s, 0, k);
  }

  /**
    A payment with an untrimmed key fails, and the same request is sent again, after the first call has ended: it is
    charged, but finds its key committed, and no row records its charge, although nothing failed.
  */
  lemma ResentChargesInVain(cfg: Config, a: PayArgs) returns (ls: seq<Label>, s: State, k: nat)
    requires !cfg.trimmedKeys && Payable(cfg, a)
    ensures Reaches(cfg, ls, s) && FaultFree(ls) && Quiet(s) && ChargedInVain(s, k) && !ChargedOnce(cfg, ls, s)
  {
    var s0;
    var b := a.(key := " k");
    StoredTrimmed();
    ls, s0 := Resends(cfg, b);
    k := |s0.sh.gateway|;
    CommitsHaveGatewayCalls(cfg, ls, s0, 0);
    var ls0 := ls;
    ls, s := ChargesInVain(cfg, ls, s0, 1, b, SUCCESS);
    QuietAfter(s0, s, 1);
    LoserInVain(cfg, ls0, s0, s, 1, b);
    ChargedAgain(cfg, ls, s, 0, k);
  }

  /** The same request again, past its lookups. */
  lemma Resends(cfg: Config, a: PayArgs) returns (ls: seq<Label>, s: State)
    requires Payable(cfg, a) && NullString(a.key).Some? && !Trimmed(a.key)
    ensures Reaches(cfg, ls, s) && FaultFree(ls) && AtGateway(s, 1, a) && KeyCommitted(s.sh, a.key)
    ensures |s.sh.log| == 1 && s.sh.log[0].op.ChargeOp? && s.sh.log[0].req == PayReq(a)
    ensures s.calls.Keys == {0, 1} && s.calls[0].Finished() && s.sh.locks == map[] && s.sh.keys == map[]
  {
    var s0, p, tid;
    ls, s0, p, tid := Funds(cfg, a, FAILURE);
    assert s0.sh.db.payments[p.id].key == NullString(a.key);
    TrimmedIffFixed(a.key);
    ls, s := Approaches(cfg, ls, s0, 1, a, Some(p.id));
  }

  // ---------- Charges under one key ----------

  /**
    In every run, all charges under one key but the last are of calls that were broken off, exactly when payment calls
    of one key do not overlap and keys are trimmed.
  */
  lemma OneChargeIffSerialAndTrimmed(cfg: Config, a: PayArgs)
    requires Payable(cfg, a)
    ensures (forall ls, s :: Reaches(cfg, ls, s) ==> ChargedOnce(cfg, ls, s)) <==> cfg.serialKeys && cfg.trimmedKeys
  {
    if !cfg.serialKeys {
      var ls, s, k := RaceChargesInVain(cfg, a);
    } else if !cfg.trimmedKeys {
      var ls, s, k := ResentChargesInVain(cfg, a);
    } else {
      forall ls, s | Reaches(cfg, ls, s)
        ensures ChargedOnce(cfg, ls, s)
      {
        ChargesRun(cfg, ls, s);
      }
    }
  }

  /** A call broken off after its charge, and a second call with its key at the gateway. */
  lemma Retries(cfg: Config, a: PayArgs) returns (ls: seq<Label>, s: State)
    requires Payable(cfg, a)
    ensures Reaches(cfg, ls, s) && AtGateway(s, 1, a) && s.sh.locks == map[] && s.sh.keys == map[] && s.sh.log == []
    ensures s.sh.db == EMPTY_DB && |s.sh.gateway| == 1 && s.calls.Keys == {0, 1} && s.calls[0].Finished()
    ensures s.sh.gateway[0].cid == 0 && s.sh.gateway[0].ChargeCall? && s.sh.gateway[0].result.success
    ensures KeyOf(s, 0) == NullString(a.key)
  {
    var s0;
    ls, s0 := FaultChargesInVain(cfg, a);
    assert s0.sh.gateway[0].cid == 0;
    ls, s := Approaches(cfg, ls, s0, 1, a, None);
  }

  /** The charge that the only event records is not call 0's. */
  lemma SecondCharged(cfg: Config, ls: seq<Label>, s: State, a: PayArgs) returns (k: nat)
    requires Reaches(cfg, ls, s) && |s.sh.log| == 1 && s.sh.log[0].op.ChargeOp? && s.sh.log[0].cid == 1
    requires s.sh.log[0].req == PayReq(a) && |s.sh.gateway| > 0 && s.sh.gateway[0].cid == 0
    ensures 0 < k < |s.sh.gateway| && HasEvent(s.sh.log, k) && !HasEvent(s.sh.log, 0)
    ensures s.sh.gateway[k].ChargeCall? && KeyOf(s, k) == NullString(a.key)
    ensures s.sh.gateway[k].result == s.sh.log[0].op.res
  {
    CommitsHaveGatewayCalls(cfg, ls, s, 0);
    RequestsRun(cfg, ls, s);
    k := s.sh.log[0].op.gi;
  }

  /** Whatever callers keep to, a call broken off after its charge can be made again: two charges under one key. */
  lemma RetryChargesTwice(cfg: Config, a: PayArgs) returns (ls: seq<Label>, s: State, k: nat)
    requires Payable(cfg, a)
    ensures Reaches(cfg, ls, s) && ChargedInVain(s, 0) && 0 < k < |s.sh.gateway| && s.sh.gateway[k].ChargeCall?
    ensures s.sh.gateway[k].result.success && HasEvent(s.sh.log, k) && KeyOf(s, 0) == KeyOf(s, k) == Some("k")
  {
    var b := a.(key := "k");
    var s0, p, tid;
    StoredTrimmed();
    ls, s0 := Retries(cfg, b);
    ls, s, p, tid := Pays(cfg, ls, s0, 1, b, SUCCESS);
    k := SecondCharged(cfg, ls, s, b);
  }

  // ---------- Refunds at the gateway ----------

  /** The gateway call of a refund that is about to commit. */
  lemma AskedBefore(cfg: Config, ls: seq<Label>, s: State, c: CallId, a: RefundArgs) returns (k: nat)
    requires Reaches(cfg, ls, s) && c in s.calls && s.calls[c].req == RefundReq(a) && s.calls[c].pc.RefundCommit?
    requires s.calls[c].pc.res == SUCCESS
    ensures k < |s.sh.gateway| && PaidBack(s, a.paymentId, k) == a.amount && s.sh.gateway[k].cid == c
  {
    RunKeeps(cfg, ls, s);
    assert RefundInTx(cfg, s.sh, c, s.calls[c]);
    k := s.calls[c].pc.gi;
  }

  /** A refund that reached its commit, which failed: the gateway paid back, and no row says so. */
  lemma FaultRefundsInVain(cfg: Config, ls: seq<Label>, s: State, c: CallId, a: RefundArgs)
    returns (ls': seq<Label>, s': State, k: nat)
    requires Reaches(cfg, ls, s) && AtRead(s, c, a) && RefundCheck(cfg.router, s.sh.db, a).Ok?
    requires a.paymentId !in s.sh.locks
    ensures Reaches(cfg, ls', s') && Alone(s, s', c) && s'.calls[c].Finished() && HoldsNothing(s'.sh, c)
    ensures s'.sh.db == s.sh.db && s'.sh.log == s.sh.log
    ensures k < |s'.sh.gateway| && PaidBack(s', a.paymentId, k) == a.amount && s'.sh.gateway[k].cid == c
  {
    var s0;
    ls', s0 := Prepares(cfg, ls, s, c, a, SUCCESS);
    RunKeeps(cfg, ls', s0);
    OwnCommit(cfg, s0.sh, c, s0.calls[c]);
    k := AskedBefore(cfg, ls', s0, c, a);
    ls', s' := CannotCommit(cfg, ls', s0, c);
    AloneTransitive(s, s0, s', c);
  }

  /** A refund of the whole payment that must not collide with another. */
  function WholeRefund(pay: PayArgs, p: Id): RefundArgs {
    RefundArgs(p, pay.amount, "", "", "")
  }

  /** Call 1 has a refund of the whole payment paid back by the gateway, and is broken off. */
  lemma RefundLost(cfg: Config, pay: PayArgs) returns (ls: seq<Label>, s: State, p: Id, j: nat)
    requires Payable(cfg, pay)
    ensures Reaches(cfg, ls, s) && Open(cfg, s, pay, p, 0) && s.calls.Keys == {0, 1} && s.calls[1].Finished()
    ensures j < |s.sh.gateway| && PaidBack(s, p, j) == pay.amount && s.sh.gateway[j].cid == 1
  {
    var s0, s1, row, tid;
    ls, s0, row, tid := Funds(cfg, pay, SUCCESS);
    p := row.id;
    FundedIsOpen(cfg, s0, pay, row, tid);
    ls, s1 := Enters(cfg, ls, s0, 1, WholeRefund(pay, p));
    Accepts(cfg, s1, pay, WholeRefund(pay, p), 0);
    ls, s, j := FaultRefundsInVain(cfg, ls, s1, 1, WholeRefund(pay, p));
  }

  /** The refund call of a committed refund, apart from that of call 1. */
  lemma PaidAgain(cfg: Config, ls: seq<Label>, s: State, i: nat, a: RefundArgs, j: nat) returns (k: nat)
    requires Reaches(cfg, ls, s) && i < |s.sh.log| && s.sh.log[i].op.RefundOp? && s.sh.log[i].op.res.success
    requires s.sh.log[i].req == RefundReq(a) && j < |s.sh.gateway| && s.sh.gateway[j].cid != s.sh.log[i].cid
    ensures k < |s.sh.gateway| && k != j && PaidBack(s, a.paymentId, k) == a.amount
  {
    CommitsHaveGatewayCalls(cfg, ls, s, i);
    EventPays(cfg, ls, s, i, a.paymentId);
    k := s.sh.log[i].op.gi;
  }

  /** A refund broken off after its gateway call can be made again: the whole payment is paid back twice. */
  lemma RetryRefundsTwice(cfg: Config, pay: PayArgs) returns (ls: seq<Label>, s: State, p: Id, j: nat, k: nat)
    requires Payable(cfg, pay)
    ensures Reaches(cfg, ls, s) && p in s.sh.db.payments && s.sh.db.payments[p].amount == pay.amount
    ensures j < |s.sh.gateway| && k < |s.sh.gateway| && j != k
    ensures PaidBack(s, p, j) == pay.amount && PaidBack(s, p, k) == pay.amount
  {
    var s0, s1, r, tid;
    ls, s0, p, j := RefundLost(cfg, pay);
    ls, s1 := Enters(cfg, ls, s0, 2, WholeRefund(pay, p));
    Accepts(cfg, s1, pay, WholeRefund(pay, p), 0);
    ls, s, r, tid := Refunds(cfg, ls, s1, 2, WholeRefund(pay, p), SUCCESS);
    k := PaidAgain(cfg, ls, s, |s1.sh.log|, WholeRefund(pay, p), j);
  }
}
