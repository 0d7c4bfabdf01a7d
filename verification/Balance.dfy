/** The ledger balance under status updates: its exact value, and the discipline that keeps it from going negative. */
module Balance {
  import opened Domain
  import opened Ledger
  import opened Protocol
  import opened Runs
  import opened Theorems
  import opened Traces

  /**
    In every reachable state, whatever statuses are written, the balance of a payment is what its charge took minus what
    was refunded; its charge took all of its amount or nothing; and the balance is negative exactly when the charge took
    nothing and a refund completed.
  */
  lemma NetFormula(cfg: Config, ls: seq<Label>, s: State, p: Id)
    requires Reaches(cfg, ls, s) && p in s.sh.db.payments
    ensures Net(s.sh.db, p) == Taken(s.sh.db, p) - Total(s.sh.db.refunds, p)
    ensures Taken(s.sh.db, p) == (if Collected(s.sh.db, p) then s.sh.db.payments[p].amount else 0)
    ensures Net(s.sh.db, p) < 0 <==> !Collected(s.sh.db, p) && Total(s.sh.db.refunds, p) > 0
  {
    RunKeeps(cfg, ls, s);
    ReplayKeeps(cfg, s.sh.log);
    ReplayBalances(cfg, s.sh.log);
    assert Balanced(s.sh.db, p);
  }

  // ---------- Careful updates ----------

  /** The tables after a step extend those before. */
  lemma StepExtends(cfg: Config, s: State, c: CallId, ch: Choice)
    requires StateInv(cfg, s) && c in s.calls && Step(cfg, s.sh, c, s.calls[c], ch).Some?
    ensures Extends(cfg, s.sh.db, Step(cfg, s.sh, c, s.calls[c], ch).value.sh.db)
  {
    var n := Step(cfg, s.sh, c, s.calls[c], ch).value;
    ActKeeps(cfg, s, c, ch);
    assert n.sh.log[..|s.sh.log|] == s.sh.log;
    LaterExtends(cfg, n.sh.log, |s.sh.log|);
  }

  lemma CollectedStays(cfg: Config, db: Db, db': Db, p: Id)
    requires Extends(cfg, db, db') && Collected(db, p)
    ensures Collected(db', p)
  {
    var t :| t in db.txns && db.txns[t].kind == Charge && db.txns[t].paymentId == p && db.txns[t].success;
    assert db'.txns[t] == db.txns[t];
  }

  /** A status call under way writes a refundable status only to a payment that was charged. */
  ghost predicate CallObeys(db: Db, call: Call) {
    call.req.StatusReq? && Refundable(call.req.status) ==> Collected(db, call.req.paymentId)
  }

  ghost predicate CarefulInv(cfg: Config, s: State) {
    && EachEvent(cfg, s.sh.log, UpdateObeys)
    && (forall c :: c in s.calls ==> CallObeys(s.sh.db, s.calls[c]))
  }

  lemma CarefulLog(cfg: Config, s: State, c: CallId, ch: Choice)
    requires StateInv(cfg, s) && CarefulInv(cfg, s) && c in s.calls && Step(cfg, s.sh, c, s.calls[c], ch).Some?
    ensures EachEvent(cfg, Step(cfg, s.sh, c, s.calls[c], ch).value.sh.log, UpdateObeys)
  {
    var n := Step(cfg, s.sh, c, s.calls[c], ch).value;
    StepRecords(cfg, s.sh, c, s.calls[c], ch);
    assert Logs(c, s.calls[c], ch, s.sh, n.sh);
    assert CallObeys(s.sh.db, s.calls[c]);
    if n.sh.log != s.sh.log {
      var e := n.sh.log[|s.sh.log|];
      EachExtends(cfg, s.sh.log, e, UpdateObeys);
    }
  }

  lemma CarefulAct(cfg: Config, s: State, c: CallId, ch: Choice)
    requires StateInv(cfg, s) && CarefulInv(cfg, s) && c in s.calls && Step(cfg, s.sh, c, s.calls[c], ch).Some?
    ensures var n := Step(cfg, s.sh, c, s.calls[c], ch).value;
      CarefulInv(cfg, State(n.sh, s.calls[c := n.call]))
  {
    var n := Step(cfg, s.sh, c, s.calls[c], ch).value;
    CarefulLog(cfg, s, c, ch);
    StepExtends(cfg, s, c, ch);
    StepKeepsRequest(cfg, s.sh, c, s.calls[c], ch);
    forall d | d in s.calls
      ensures CallObeys(n.sh.db, s.calls[d])
    {
      assert CallObeys(s.sh.db, s.calls[d]);
      if s.calls[d].req.StatusReq? && Refundable(s.calls[d].req.status) {
        CollectedStays(cfg, s.sh.db, n.sh.db, s.calls[d].req.paymentId);
      }
    }
  }

  lemma {:induction false} CarefulRun(cfg: Config, ls: seq<Label>, s: State)
    requires (cfg.careful || cfg.settled) && Reaches(cfg, ls, s)
    ensures CarefulInv(cfg, s)
    decreases |ls|
  {
    if ls == [] {
      assert s == INIT;
    } else {
      var m := |ls| - 1;
      var before := Run(cfg, INIT, ls[..m]).value;
      CarefulRun(cfg, ls[..m], before);
      RunKeeps(cfg, ls[..m], before);
      if ls[m].Act? {
        CarefulAct(cfg, before, ls[m].c, ls[m].ch);
      }
    }
  }

  /**
    While updates write COMPLETED or REFUND_PENDING only to payments that were charged, or not at all, the balance of a
    payment stays between 0 and its amount.
  */
  lemma CarefulBalance(cfg: Config, ls: seq<Label>, s: State, p: Id)
    requires !cfg.admin || cfg.careful || cfg.settled
    requires Reaches(cfg, ls, s) && p in s.sh.db.payments
    ensures 0 <= Net(s.sh.db, p) <= s.sh.db.payments[p].amount
  {
    NetFormula(cfg, ls, s, p);
    RefundCap(cfg, ls, s, p);
    if cfg.careful || cfg.settled {
      CarefulRun(cfg, ls, s);
      RunKeeps(cfg, ls, s);
      ReplayEarned(cfg, s.sh.log);
    } else {
      LedgerConserves(cfg, ls, s, p);
    }
  }
}
