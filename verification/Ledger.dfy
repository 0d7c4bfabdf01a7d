/** What every committed state satisfies, proved operation by operation on the atomic procedures. */
module Ledger {
  import opened Base
  import opened Text
  import opened Sums
  import opened Routing
  import opened Domain

  // ---------- The invariants ----------

  predicate CleanText(t: Option<string>) {
    t.Some? ==> t.value != "" && Trimmed(t.value)
  }

  predicate GoodPayment(p: Payment, id: Id) {
    p.id == id && 0 < p.amount && FitsNumeric(p.amount) && CleanText(p.key)
  }

  predicate GoodRefund(r: Refund, id: Id) {
    r.id == id && 0 < r.amount && r.status in {RefCompleted, RefFailed} && CleanText(r.correlationId)
  }

  /** A refund names a payment that exists, in the same currency, and asks for no more than its amount. */
  predicate RefundRefers(db: Db, r: Refund) {
    && r.paymentId in db.payments && r.currency == db.payments[r.paymentId].currency
    && r.amount <= db.payments[r.paymentId].amount
  }

  /** No two committed payments share an idempotency key. */
  ghost predicate KeysUnique(db: Db) {
    forall p, q :: p in db.payments && q in db.payments && p != q ==>
      db.payments[p].key == None || db.payments[p].key != db.payments[q].key
  }

  /** No two refunds carry the same correlation id, on whatever payments. */
  ghost predicate CorrelationsUnique(db: Db) {
    forall q, r :: q in db.refunds && r in db.refunds && q != r ==>
      db.refunds[q].correlationId == None || db.refunds[q].correlationId != db.refunds[r].correlationId
  }

  /** Rows are well formed and refer to rows that exist. */
  ghost predicate WellFormed(db: Db) {
    && (forall p :: p in db.payments ==> GoodPayment(db.payments[p], p))
    && (forall r :: r in db.refunds ==> GoodRefund(db.refunds[r], r) && RefundRefers(db, db.refunds[r]))
    && KeysUnique(db)
  }

  /** The COMPLETED refunds of each payment add up to at most its amount. */
  ghost predicate Capped(db: Db) {
    forall p :: p in db.payments ==> 0 <= Total(db.refunds, p) <= db.payments[p].amount
  }

  function ChargeOf(p: Id): Txn -> int {
    (t: Txn) => if t.kind == Charge && t.paymentId == p then 1 else 0
  }

  function ChargeAmountOf(p: Id): Txn -> int {
    (t: Txn) => if t.kind == Charge && t.paymentId == p then t.amount else 0
  }

  function RefundOf(r: Id): Txn -> int {
    (t: Txn) => if t.kind == RefundTxn && t.refundId == Some(r) then 1 else 0
  }

  function RefundAmountOf(r: Id): Txn -> int {
    (t: Txn) => if t.kind == RefundTxn && t.refundId == Some(r) then t.amount else 0
  }

  function RefundSuccessOf(r: Id): Txn -> int {
    (t: Txn) => if t.kind == RefundTxn && t.refundId == Some(r) && t.success then 1 else 0
  }

  /** Payment `p` has exactly one CHARGE row, and it carries the payment's amount. */
  ghost predicate ChargeAudited(db: Db, p: Id)
    requires p in db.payments
  {
    Sum(db.txns, ChargeOf(p)) == 1 && Sum(db.txns, ChargeAmountOf(p)) == db.payments[p].amount
  }

  /** Refund `r` has exactly one REFUND row, of its amount, successful exactly when the refund completed. */
  ghost predicate RefundAudited(db: Db, r: Id)
    requires r in db.refunds
  {
    && Sum(db.txns, RefundOf(r)) == 1
    && Sum(db.txns, RefundAmountOf(r)) == db.refunds[r].amount
    && Sum(db.txns, RefundSuccessOf(r)) == (if db.refunds[r].status == RefCompleted then 1 else 0)
  }

  /** An audit row names a payment that exists, and a REFUND row a refund of that payment. */
  ghost predicate TxnRefers(db: Db, t: Txn) {
    && t.paymentId in db.payments
    && (t.kind == Charge ==> t.refundId == None)
    && (t.kind == RefundTxn ==>
          && t.refundId.Some? && t.refundId.value in db.refunds
          && db.refunds[t.refundId.value].paymentId == t.paymentId)
  }

  /** Every payment and every refund has exactly one audit row, and every audit row belongs to one of them. */
  ghost predicate Audited(db: Db) {
    && (forall p :: p in db.payments ==> ChargeAudited(db, p))
    && (forall r :: r in db.refunds ==> RefundAudited(db, r))
    && (forall t :: t in db.txns ==> TxnRefers(db, db.txns[t]))
  }

  ghost predicate DbInv(db: Db) {
    WellFormed(db) && Capped(db) && Audited(db)
  }

  /** The balance the audit rows show for payment `p`: successful charges minus successful refunds. */
  function Signed(p: Id): Txn -> int {
    (t: Txn) => if t.paymentId != p || !t.success then 0 else if t.kind == Charge then t.amount else -t.amount
  }

  ghost function Net(db: Db, p: Id): int {
    Sum(db.txns, Signed(p))
  }

  function RowOf(p: Id): Refund -> int {
    (r: Refund) => if r.paymentId == p then 1 else 0
  }

  function FailedOf(p: Id): Refund -> int {
    (r: Refund) => if r.paymentId == p && r.status == RefFailed then 1 else 0
  }

  ghost function RowCount(db: Db, p: Id): int {
    Sum(db.refunds, RowOf(p))
  }

  ghost function FailedCount(db: Db, p: Id): int {
    Sum(db.refunds, FailedOf(p))
  }

  /** The status of payment `p` says exactly what its refunds and audit rows say. */
  ghost predicate StatusAgrees(db: Db, p: Id)
    requires p in db.payments
  {
    var row := db.payments[p];
    && row.status in {Completed, Failed, Refunded, RefundFailed}
    && (row.status == Refunded <==> Total(db.refunds, p) == row.amount)
    && (row.status == Failed ==> RowCount(db, p) == 0)
    && FailedCount(db, p) == (if row.status == RefundFailed then 1 else 0)
    && RowCount(db, p) <= Total(db.refunds, p) + FailedCount(db, p)
    && Net(db, p) == (if row.status == Failed then 0 else row.amount) - Total(db.refunds, p)
  }

  ghost predicate StatusInv(db: Db) {
    forall p :: p in db.payments ==> StatusAgrees(db, p)
  }

  // ---------- What the atomic operations do to the tables ----------

  ghost predicate ChargeEffect(db: Db, db': Db, p: Payment, t: Txn) {
    && p.id !in db.payments && t.id !in db.txns
    && db' == Db(db.payments[p.id := p], db.refunds, db.txns[t.id := t])
    && GoodPayment(p, p.id)
    && (p.key.Some? ==> KeyFree(db, p.key.value))
    && p.status == (if t.success then Completed else Failed)
    && t.kind == Charge && t.paymentId == p.id && t.refundId == None && t.amount == p.amount
  }

  lemma ChargeHasEffect(router: Router, db: Db, a: PayArgs, pid: Id, tid: Id, now: nat, res: GatewayResult, db': Db,
                        p: Payment)
    requires ValidPay(a)
    requires AtomicCharge(router, db, a, pid, tid, now, res) == Ok((db', p))
    ensures tid in db'.txns && ChargeEffect(db, db', p, db'.txns[tid])
  {
  }

  ghost predicate RefundEffect(db: Db, db': Db, p: Id, st: PaymentStatus, r: Refund, t: Txn) {
    && p in db.payments && Refundable(db.payments[p].status)
    && r.id !in db.refunds && t.id !in db.txns
    && db' == Db(db.payments[p := db.payments[p].(status := st)], db.refunds[r.id := r], db.txns[t.id := t])
    && r.paymentId == p && 0 < r.amount <= db.payments[p].amount - Total(db.refunds, p)
    && r.currency == db.payments[p].currency
    && r.status == (if t.success then RefCompleted else RefFailed)
    && CleanText(r.correlationId)
    && t.kind == RefundTxn && t.paymentId == p && t.refundId == Some(r.id) && t.amount == r.amount
    && st == (if !t.success then RefundFailed
              else if r.amount == db.payments[p].amount - Total(db.refunds, p) then Refunded else Completed)
  }

  lemma RefundHasEffect(router: Router, db: Db, a: RefundArgs, rid: Id, tid: Id, now: nat, res: GatewayResult, db': Db,
                        r: Refund)
    requires ValidRefund(a)
    requires AtomicRefund(router, db, a, rid, tid, now, res) == Ok((db', r))
    ensures tid in db'.txns && a.paymentId in db'.payments
    ensures RefundEffect(db, db', a.paymentId, db'.payments[a.paymentId].status, r, db'.txns[tid])
  {
  }

  // ---------- Preservation ----------

  lemma NoRows(db: Db, p: Id)
    requires WellFormed(db) && p !in db.payments
    ensures Total(db.refunds, p) == RowCount(db, p) == FailedCount(db, p) == 0
  {
    SumZero(db.refunds, CompletedOf(p));
    SumZero(db.refunds, RowOf(p));
    SumZero(db.refunds, FailedOf(p));
  }

  lemma ChargeKeepsRows(db: Db, db': Db, p: Payment, t: Txn)
    requires WellFormed(db) && ChargeEffect(db, db', p, t)
    ensures WellFormed(db')
  {
    forall r | r in db'.refunds
      ensures RefundRefers(db', db'.refunds[r])
    {
      assert RefundRefers(db, db.refunds[r]);
    }
  }

  lemma ChargeKeepsCap(db: Db, db': Db, p: Payment, t: Txn)
    requires WellFormed(db) && Capped(db) && ChargeEffect(db, db', p, t)
    ensures Capped(db')
  {
    NoRows(db, p.id);
  }

  /** A new audit row leaves the audit of every other payment and refund as it was. */
  lemma AuditFrame(db: Db, t: Txn, q: Id)
    requires t.id !in db.txns
    ensures t.kind != Charge || t.paymentId != q ==>
              && Sum(db.txns[t.id := t], ChargeOf(q)) == Sum(db.txns, ChargeOf(q))
              && Sum(db.txns[t.id := t], ChargeAmountOf(q)) == Sum(db.txns, ChargeAmountOf(q))
    ensures t.kind != RefundTxn || t.refundId != Some(q) ==>
              && Sum(db.txns[t.id := t], RefundOf(q)) == Sum(db.txns, RefundOf(q))
              && Sum(db.txns[t.id := t], RefundAmountOf(q)) == Sum(db.txns, RefundAmountOf(q))
              && Sum(db.txns[t.id := t], RefundSuccessOf(q)) == Sum(db.txns, RefundSuccessOf(q))
  {
    SumInsert(db.txns, t.id, t, ChargeOf(q));
    SumInsert(db.txns, t.id, t, ChargeAmountOf(q));
    SumInsert(db.txns, t.id, t, RefundOf(q));
    SumInsert(db.txns, t.id, t, RefundAmountOf(q));
    SumInsert(db.txns, t.id, t, RefundSuccessOf(q));
  }

  lemma ChargeKeepsAudit(db: Db, db': Db, p: Payment, t: Txn)
    requires Audited(db) && ChargeEffect(db, db', p, t)
    ensures Audited(db')
  {
    forall q | q in db'.payments
      ensures ChargeAudited(db', q)
    {
      if q == p.id {
        SumZero(db.txns, ChargeOf(q));
        SumZero(db.txns, ChargeAmountOf(q));
        SumInsert(db.txns, t.id, t, ChargeOf(q));
        SumInsert(db.txns, t.id, t, ChargeAmountOf(q));
      } else {
        assert ChargeAudited(db, q);
        AuditFrame(db, t, q);
      }
    }
    forall r | r in db'.refunds
      ensures RefundAudited(db', r)
    {
      assert RefundAudited(db, r);
      AuditFrame(db, t, r);
    }
  }

  ghost function Restatus(db: Db, p: Id, st: PaymentStatus): Db
    requires p in db.payments
  {
    db.(payments := db.payments[p := db.payments[p].(status := st)])
  }

  lemma RestatusKeepsRows(db: Db, p: Id, st: PaymentStatus)
    requires WellFormed(db) && p in db.payments
    ensures WellFormed(Restatus(db, p, st))
  {
    var db' := Restatus(db, p, st);
    assert forall q :: q in db'.payments ==> GoodPayment(db.payments[q], q);
    assert KeysUnique(db') by {
      assert forall q :: q in db'.payments ==> db'.payments[q].key == db.payments[q].key;
    }
    forall r | r in db'.refunds
      ensures RefundRefers(db', db'.refunds[r])
    {
      assert RefundRefers(db, db.refunds[r]);
    }
  }

  lemma RestatusKeepsAudit(db: Db, p: Id, st: PaymentStatus)
    requires Audited(db) && p in db.payments
    ensures Audited(Restatus(db, p, st))
  {
    var db' := Restatus(db, p, st);
    assert forall q :: q in db'.payments ==> ChargeAudited(db, q);
    assert forall r :: r in db'.refunds ==> RefundAudited(db, r);
    assert forall t :: t in db'.txns ==> TxnRefers(db, db.txns[t]);
  }

  lemma RowsGrow(db: Db, r: Refund, db': Db)
    requires WellFormed(db) && GoodRefund(r, r.id) && RefundRefers(db, r)
    requires db'.payments == db.payments && db'.refunds == db.refunds[r.id := r]
    ensures WellFormed(db')
  {
    forall q | q in db'.refunds
      ensures RefundRefers(db', db'.refunds[q])
    {
      assert q != r.id ==> RefundRefers(db, db.refunds[q]);
    }
  }

  lemma RefundKeepsRows(db: Db, db': Db, p: Id, st: PaymentStatus, r: Refund, t: Txn)
    requires WellFormed(db) && Capped(db) && RefundEffect(db, db', p, st, r, t)
    ensures WellFormed(db')
  {
    RestatusKeepsRows(db, p, st);
    RowsGrow(Restatus(db, p, st), r, db');
  }

  lemma RefundKeepsCap(db: Db, db': Db, p: Id, st: PaymentStatus, r: Refund, t: Txn)
    requires Capped(db) && RefundEffect(db, db', p, st, r, t)
    ensures Capped(db')
  {
    forall q | q in db'.payments
      ensures 0 <= Total(db'.refunds, q) <= db'.payments[q].amount
    {
      SumInsert(db.refunds, r.id, r, CompletedOf(q));
    }
  }

  /** The audit row of refund `r` inserted together with it. */
  lemma RefundAuditAdded(db: Db, r: Id, t: Txn)
    requires Audited(db) && r !in db.refunds && t.id !in db.txns
    requires t.kind == RefundTxn && t.refundId == Some(r)
    ensures Sum(db.txns[t.id := t], RefundOf(r)) == 1
    ensures Sum(db.txns[t.id := t], RefundAmountOf(r)) == t.amount
    ensures Sum(db.txns[t.id := t], RefundSuccessOf(r)) == (if t.success then 1 else 0)
  {
    assert forall u :: u in db.txns ==> TxnRefers(db, db.txns[u]);
    SumZero(db.txns, RefundOf(r));
    SumZero(db.txns, RefundAmountOf(r));
    SumZero(db.txns, RefundSuccessOf(r));
    SumInsert(db.txns, t.id, t, RefundOf(r));
    SumInsert(db.txns, t.id, t, RefundAmountOf(r));
    SumInsert(db.txns, t.id, t, RefundSuccessOf(r));
  }

  /** Inserting refund `r` with its audit row `t` keeps the audit complete. */
  lemma AuditGrows(db: Db, r: Refund, t: Txn, db': Db)
    requires Audited(db) && r.id !in db.refunds && t.id !in db.txns && r.paymentId in db.payments
    requires t.kind == RefundTxn && t.refundId == Some(r.id) && t.amount == r.amount && t.paymentId == r.paymentId
    requires r.status == (if t.success then RefCompleted else RefFailed)
    requires db' == Db(db.payments, db.refunds[r.id := r], db.txns[t.id := t])
    ensures Audited(db')
  {
    forall q | q in db'.payments
      ensures ChargeAudited(db', q)
    {
      assert ChargeAudited(db, q);
      AuditFrame(db, t, q);
    }
    forall q | q in db'.refunds
      ensures RefundAudited(db', q)
    {
      if q == r.id {
        RefundAuditAdded(db, q, t);
      } else {
        assert RefundAudited(db, q);
        AuditFrame(db, t, q);
      }
    }
    forall u | u in db'.txns
      ensures TxnRefers(db', db'.txns[u])
    {
      if u != t.id {
        assert TxnRefers(db, db.txns[u]);
      }
    }
  }

  lemma RefundKeepsAudit(db: Db, db': Db, p: Id, st: PaymentStatus, r: Refund, t: Txn)
    requires Audited(db) && RefundEffect(db, db', p, st, r, t)
    ensures Audited(db')
  {
    RestatusKeepsAudit(db, p, st);
    AuditGrows(Restatus(db, p, st), r, t, db');
  }

  lemma StatusKeeps(db: Db, p: Id, st: PaymentStatus)
    requires DbInv(db) && p in db.payments
    ensures DbInv(Restatus(db, p, st))
  {
    RestatusKeepsRows(db, p, st);
    RestatusKeepsAudit(db, p, st);
  }

  /** A new payment's status agrees with its single audit row. */
  lemma ChargeStatus(db: Db, db': Db, p: Payment, t: Txn)
    requires WellFormed(db) && Audited(db) && ChargeEffect(db, db', p, t)
    ensures StatusAgrees(db', p.id)
  {
    SumInsert(db.txns, t.id, t, Signed(p.id));
    NoRows(db, p.id);
    assert forall u :: u in db.txns ==> TxnRefers(db, db.txns[u]);
    SumZero(db.txns, Signed(p.id));
  }

  lemma ChargeKeepsStatuses(db: Db, db': Db, p: Payment, t: Txn)
    requires DbInv(db) && StatusInv(db) && ChargeEffect(db, db', p, t)
    ensures StatusInv(db')
  {
    ChargeStatus(db, db', p, t);
    forall q | q in db'.payments && q != p.id
      ensures StatusAgrees(db', q)
    {
      SumInsert(db.txns, t.id, t, Signed(q));
      assert StatusAgrees(db, q);
    }
  }

  /** The sums behind the status of payment `q`, after a refund and its audit row are inserted. */
  lemma RefundSums(db: Db, r: Refund, t: Txn, q: Id)
    requires r.id !in db.refunds && t.id !in db.txns
    ensures Total(db.refunds[r.id := r], q) == Total(db.refunds, q) + CompletedOf(q)(r)
    ensures Sum(db.refunds[r.id := r], RowOf(q)) == RowCount(db, q) + RowOf(q)(r)
    ensures Sum(db.refunds[r.id := r], FailedOf(q)) == FailedCount(db, q) + FailedOf(q)(r)
    ensures Sum(db.txns[t.id := t], Signed(q)) == Net(db, q) + Signed(q)(t)
  {
    SumInsert(db.refunds, r.id, r, CompletedOf(q));
    SumInsert(db.refunds, r.id, r, RowOf(q));
    SumInsert(db.refunds, r.id, r, FailedOf(q));
    SumInsert(db.txns, t.id, t, Signed(q));
  }

  /** A refund moves the status, the totals and the balance of its payment together. */
  lemma RefundStatus(db: Db, db': Db, p: Id, st: PaymentStatus, r: Refund, t: Txn, q: Id)
    requires q in db.payments && StatusAgrees(db, q) && RefundEffect(db, db', p, st, r, t)
    ensures q in db'.payments && StatusAgrees(db', q)
  {
    RefundSums(db, r, t, q);
  }

  lemma RefundKeepsStatuses(db: Db, db': Db, p: Id, st: PaymentStatus, r: Refund, t: Txn)
    requires StatusInv(db) && RefundEffect(db, db', p, st, r, t)
    ensures StatusInv(db')
  {
    forall q | q in db'.payments
      ensures StatusAgrees(db', q)
    {
      RefundStatus(db, db', p, st, r, t, q);
    }
  }

  lemma EventKeeps(cfg: Config, db: Db, e: Event)
    requires DbInv(db) && (!cfg.admin ==> StatusInv(db)) && ApplyEvent(cfg, db, e).Some?
    ensures DbInv(ApplyEvent(cfg, db, e).value)
    ensures !cfg.admin ==> StatusInv(ApplyEvent(cfg, db, e).value)
  {
    var db' := ApplyEvent(cfg, db, e).value;
    match e.op
    case ChargeOp(pid, tid, now, res, _) =>
      var p := e.resp.payment;
      ChargeHasEffect(cfg.router, db, e.req.pay, pid, tid, now, res, db', p);
      ChargeKeepsRows(db, db', p, db'.txns[tid]);
      ChargeKeepsCap(db, db', p, db'.txns[tid]);
      ChargeKeepsAudit(db, db', p, db'.txns[tid]);
      if !cfg.admin {
        ChargeKeepsStatuses(db, db', p, db'.txns[tid]);
      }
    case RefundOp(rid, tid, now, res, _) =>
      var p, r := e.req.refund.paymentId, e.resp.refund;
      RefundHasEffect(cfg.router, db, e.req.refund, rid, tid, now, res, db', r);
      RefundKeepsRows(db, db', p, db'.payments[p].status, r, db'.txns[tid]);
      RefundKeepsCap(db, db', p, db'.payments[p].status, r, db'.txns[tid]);
      RefundKeepsAudit(db, db', p, db'.payments[p].status, r, db'.txns[tid]);
      if !cfg.admin {
        RefundKeepsStatuses(db, db', p, db'.payments[p].status, r, db'.txns[tid]);
      }
    case StatusOp =>
      StatusKeeps(db, e.req.paymentId, e.req.status);
    case ReadOp =>
  }

  /** Every history that replays ends in tables satisfying all the invariants. */
  lemma {:induction false} ReplayKeeps(cfg: Config, log: seq<Event>)
    requires Replay(cfg, log).Some?
    ensures DbInv(Replay(cfg, log).value)
    ensures !cfg.admin ==> StatusInv(Replay(cfg, log).value)
  {
    if log == [] {
    } else {
      var n := |log| - 1;
      ReplayKeeps(cfg, log[..n]);
      EventKeeps(cfg, Replay(cfg, log[..n]).value, log[n]);
    }
  }

  lemma ReplayWellFormed(cfg: Config, log: seq<Event>)
    requires Replay(cfg, log).Some?
    ensures WellFormed(Replay(cfg, log).value)
  {
    ReplayKeeps(cfg, log);
  }

  // ---------- The balance ----------

  function TakenOf(p: Id): Txn -> int {
    (t: Txn) => if t.kind == Charge && t.paymentId == p && t.success then t.amount else 0
  }

  /** What the gateway took for payment `p`: the sum of its successful CHARGE rows. */
  ghost function Taken(db: Db, p: Id): int {
    Sum(db.txns, TakenOf(p))
  }

  /** The balance is what was taken minus what was refunded, and all of the amount was taken or nothing. */
  ghost predicate Balanced(db: Db, p: Id)
    requires p in db.payments
  {
    && Net(db, p) == Taken(db, p) - Total(db.refunds, p)
    && Taken(db, p) == (if Collected(db, p) then db.payments[p].amount else 0)
  }

  ghost predicate BalanceInv(db: Db) {
    forall p :: p in db.payments ==> Balanced(db, p)
  }

  /** A new audit row makes a payment collected exactly if it is the payment's own successful CHARGE row. */
  lemma CollectedBy(db: Db, t: Txn, db': Db, q: Id)
    requires t.id !in db.txns && db'.txns == db.txns[t.id := t]
    ensures Collected(db', q) <==> Collected(db, q) || (t.kind == Charge && t.paymentId == q && t.success)
  {
    if Collected(db, q) {
      var u :| u in db.txns && db.txns[u].kind == Charge && db.txns[u].paymentId == q && db.txns[u].success;
      assert db'.txns[u] == db.txns[u];
    }
    assert db'.txns[t.id] == t;
  }

  lemma NoTxns(db: Db, p: Id)
    requires Audited(db) && p !in db.payments
    ensures Net(db, p) == Taken(db, p) == 0 && !Collected(db, p)
  {
    assert forall u :: u in db.txns ==> TxnRefers(db, db.txns[u]);
    SumZero(db.txns, Signed(p));
    SumZero(db.txns, TakenOf(p));
  }

  lemma ChargeBalances(db: Db, db': Db, p: Payment, t: Txn, q: Id)
    requires DbInv(db) && BalanceInv(db) && ChargeEffect(db, db', p, t) && q in db'.payments
    ensures Balanced(db', q)
  {
    SumInsert(db.txns, t.id, t, Signed(q));
    SumInsert(db.txns, t.id, t, TakenOf(q));
    CollectedBy(db, t, db', q);
    if q == p.id {
      NoTxns(db, q);
      NoRows(db, q);
    } else {
      assert Balanced(db, q);
    }
  }

  lemma RefundBalances(db: Db, db': Db, p: Id, st: PaymentStatus, r: Refund, t: Txn, q: Id)
    requires BalanceInv(db) && RefundEffect(db, db', p, st, r, t) && q in db'.payments
    ensures Balanced(db', q)
  {
    assert Balanced(db, q);
    SumInsert(db.txns, t.id, t, Signed(q));
    SumInsert(db.txns, t.id, t, TakenOf(q));
    SumInsert(db.refunds, r.id, r, CompletedOf(q));
    CollectedBy(db, t, db', q);
  }

  lemma RestatusBalances(db: Db, p: Id, st: PaymentStatus)
    requires BalanceInv(db) && p in db.payments
    ensures BalanceInv(Restatus(db, p, st))
  {
    var db' := Restatus(db, p, st);
    forall q | q in db'.payments
      ensures Balanced(db', q)
    {
      assert Balanced(db, q);
      assert Collected(db', q) == Collected(db, q);
    }
  }

  lemma EventBalances(cfg: Config, db: Db, e: Event)
    requires DbInv(db) && BalanceInv(db) && ApplyEvent(cfg, db, e).Some?
    ensures BalanceInv(ApplyEvent(cfg, db, e).value)
  {
    var db' := ApplyEvent(cfg, db, e).value;
    match e.op
    case ChargeOp(pid, tid, now, res, _) =>
      ChargeHasEffect(cfg.router, db, e.req.pay, pid, tid, now, res, db', e.resp.payment);
      forall q | q in db'.payments
        ensures Balanced(db', q)
      {
        ChargeBalances(db, db', e.resp.payment, db'.txns[tid], q);
      }
    case RefundOp(rid, tid, now, res, _) =>
      var p := e.req.refund.paymentId;
      RefundHasEffect(cfg.router, db, e.req.refund, rid, tid, now, res, db', e.resp.refund);
      forall q | q in db'.payments
        ensures Balanced(db', q)
      {
        RefundBalances(db, db', p, db'.payments[p].status, e.resp.refund, db'.txns[tid], q);
      }
    case StatusOp =>
      RestatusBalances(db, e.req.paymentId, e.req.status);
    case ReadOp =>
  }

  lemma {:induction false} ReplayBalances(cfg: Config, log: seq<Event>)
    requires Replay(cfg, log).Some?
    ensures BalanceInv(Replay(cfg, log).value)
  {
    if log == [] {
    } else {
      var n := |log| - 1;
      ReplayBalances(cfg, log[..n]);
      ReplayKeeps(cfg, log[..n]);
      EventBalances(cfg, Replay(cfg, log[..n]).value, log[n]);
    }
  }

  // ---------- Status updates that obey ----------

  /** Each event of a history satisfies `q` on the tables it met. */
  ghost predicate EachEvent(cfg: Config, log: seq<Event>, q: (Db, Event) -> bool) {
    forall i :: 0 <= i < |log| && Replay(cfg, log[..i]).Some? ==> q(Replay(cfg, log[..i]).value, log[i])
  }

  lemma EachExtends(cfg: Config, log: seq<Event>, e: Event, q: (Db, Event) -> bool)
    requires EachEvent(cfg, log, q) && Replay(cfg, log).Some? && q(Replay(cfg, log).value, e)
    ensures EachEvent(cfg, log + [e], q)
  {
    var log' := log + [e];
    forall i | 0 <= i < |log'| && Replay(cfg, log'[..i]).Some?
      ensures q(Replay(cfg, log'[..i]).value, log'[i])
    {
      assert log'[..i] == log[..i];
      if i == |log| {
        assert log[..i] == log;
      }
    }
  }

  /** An update writes a refundable status only to a payment that was charged. */
  predicate UpdateObeys(db: Db, e: Event) {
    e.op.StatusOp? && e.req.StatusReq? && Refundable(e.req.status) ==> Collected(db, e.req.paymentId)
  }

  /** A payment that was not charged cannot be refunded, and nothing was refunded on it. */
  ghost predicate Earned(db: Db) {
    forall p :: p in db.payments && !Collected(db, p) ==>
      !Refundable(db.payments[p].status) && Total(db.refunds, p) == 0
  }

  lemma ChargeEarned(db: Db, db': Db, p: Payment, t: Txn)
    requires DbInv(db) && Earned(db) && ChargeEffect(db, db', p, t)
    ensures Earned(db')
  {
    forall q | q in db'.payments && !Collected(db', q)
      ensures !Refundable(db'.payments[q].status) && Total(db'.refunds, q) == 0
    {
      CollectedBy(db, t, db', q);
      if q == p.id {
        NoRows(db, q);
      }
    }
  }

  lemma RefundEarned(db: Db, db': Db, p: Id, st: PaymentStatus, r: Refund, t: Txn)
    requires Earned(db) && RefundEffect(db, db', p, st, r, t)
    ensures Earned(db')
  {
    forall q | q in db'.payments && !Collected(db', q)
      ensures !Refundable(db'.payments[q].status) && Total(db'.refunds, q) == 0
    {
      CollectedBy(db, t, db', q);
      SumInsert(db.refunds, r.id, r, CompletedOf(q));
    }
  }

  lemma RestatusEarned(db: Db, p: Id, st: PaymentStatus)
    requires Earned(db) && p in db.payments && (Refundable(st) ==> Collected(db, p))
    ensures Earned(Restatus(db, p, st))
  {
    var db' := Restatus(db, p, st);
    forall q | q in db'.payments && !Collected(db', q)
      ensures !Refundable(db'.payments[q].status) && Total(db'.refunds, q) == 0
    {
      assert Collected(db', q) == Collected(db, q);
    }
  }

  lemma EventEarned(cfg: Config, db: Db, e: Event)
    requires DbInv(db) && Earned(db) && ApplyEvent(cfg, db, e).Some? && UpdateObeys(db, e)
    ensures Earned(ApplyEvent(cfg, db, e).value)
  {
    var db' := ApplyEvent(cfg, db, e).value;
    match e.op
    case ChargeOp(pid, tid, now, res, _) =>
      ChargeHasEffect(cfg.router, db, e.req.pay, pid, tid, now, res, db', e.resp.payment);
      ChargeEarned(db, db', e.resp.payment, db'.txns[tid]);
    case RefundOp(rid, tid, now, res, _) =>
      var p := e.req.refund.paymentId;
      RefundHasEffect(cfg.router, db, e.req.refund, rid, tid, now, res, db', e.resp.refund);
      RefundEarned(db, db', p, db'.payments[p].status, e.resp.refund, db'.txns[tid]);
    case StatusOp =>
      RestatusEarned(db, e.req.paymentId, e.req.status);
    case ReadOp =>
  }

  /** If every update obeys, no payment that was not charged is ever refunded. */
  lemma {:induction false} ReplayEarned(cfg: Config, log: seq<Event>)
    requires Replay(cfg, log).Some? && EachEvent(cfg, log, UpdateObeys)
    ensures Earned(Replay(cfg, log).value)
  {
    if log == [] {
    } else {
      var n := |log| - 1;
      assert forall i :: 0 <= i < n ==> log[..n][..i] == log[..i];
      ReplayEarned(cfg, log[..n]);
      ReplayKeeps(cfg, log[..n]);
      EventEarned(cfg, Replay(cfg, log[..n]).value, log[n]);
    }
  }

  // ---------- Status updates that settle ----------

  /** An update writes no refundable status. */
  predicate UpdateSettles(db: Db, e: Event) {
    e.op.StatusOp? && e.req.StatusReq? ==> !Refundable(e.req.status)
  }

  /** No committed payment is REFUND_PENDING: the refundable ones are COMPLETED. */
  predicate NeverPending(db: Db) {
    forall p :: p in db.payments ==> db.payments[p].status != RefundPending
  }

  lemma EventNeverPending(cfg: Config, db: Db, e: Event)
    requires NeverPending(db) && ApplyEvent(cfg, db, e).Some? && UpdateSettles(db, e)
    ensures NeverPending(ApplyEvent(cfg, db, e).value)
  {
    var db' := ApplyEvent(cfg, db, e).value;
    match e.op
    case ChargeOp(pid, tid, now, res, _) =>
      ChargeHasEffect(cfg.router, db, e.req.pay, pid, tid, now, res, db', e.resp.payment);
    case RefundOp(rid, tid, now, res, _) =>
      RefundHasEffect(cfg.router, db, e.req.refund, rid, tid, now, res, db', e.resp.refund);
    case StatusOp =>
    case ReadOp =>
  }

  lemma {:induction false} ReplayNeverPending(cfg: Config, log: seq<Event>)
    requires Replay(cfg, log).Some? && EachEvent(cfg, log, UpdateSettles)
    ensures NeverPending(Replay(cfg, log).value)
  {
    if log == [] {
    } else {
      var n := |log| - 1;
      assert forall i :: 0 <= i < n ==> log[..n][..i] == log[..i];
      ReplayNeverPending(cfg, log[..n]);
      EventNeverPending(cfg, Replay(cfg, log[..n]).value, log[n]);
    }
  }

  // ---------- What never changes ----------

  /** Without UpdatePaymentStatus these statuses are final. */
  predicate Final(s: PaymentStatus) {
    s in {Failed, Refunded, RefundFailed}
  }

  /** Rows are never deleted; refund and audit rows never change; a payment row changes only its status. */
  ghost predicate Extends(cfg: Config, db: Db, db': Db) {
    && (forall p :: p in db.payments ==>
          && p in db'.payments && SameButStatus(db.payments[p], db'.payments[p])
          && (!cfg.admin && Final(db.payments[p].status) ==> db'.payments[p] == db.payments[p]))
    && (forall r :: r in db.refunds ==> r in db'.refunds && db'.refunds[r] == db.refunds[r])
    && (forall t :: t in db.txns ==> t in db'.txns && db'.txns[t] == db.txns[t])
  }

  lemma RefundExtends(cfg: Config, db: Db, db': Db, p: Id, st: PaymentStatus, r: Refund, t: Txn)
    requires RefundEffect(db, db', p, st, r, t)
    ensures Extends(cfg, db, db')
  {
  }

  lemma ChargeExtends(cfg: Config, db: Db, db': Db, p: Payment, t: Txn)
    requires ChargeEffect(db, db', p, t)
    ensures Extends(cfg, db, db')
  {
  }

  lemma EventExtends(cfg: Config, db: Db, e: Event)
    requires ApplyEvent(cfg, db, e).Some?
    ensures Extends(cfg, db, ApplyEvent(cfg, db, e).value)
  {
    match e.op
    case ChargeOp(pid, tid, now, res, _) =>
      var db' := ApplyEvent(cfg, db, e).value;
      ChargeHasEffect(cfg.router, db, e.req.pay, pid, tid, now, res, db', e.resp.payment);
      ChargeExtends(cfg, db, db', e.resp.payment, db'.txns[tid]);
    case RefundOp(rid, tid, now, res, _) =>
      var db' := ApplyEvent(cfg, db, e).value;
      var p := e.req.refund.paymentId;
      RefundHasEffect(cfg.router, db, e.req.refund, rid, tid, now, res, db', e.resp.refund);
      RefundExtends(cfg, db, db', p, db'.payments[p].status, e.resp.refund, db'.txns[tid]);
    case StatusOp =>
    case ReadOp =>
  }

  lemma ExtendsTransitive(cfg: Config, a: Db, b: Db, c: Db)
    requires Extends(cfg, a, b) && Extends(cfg, b, c)
    ensures Extends(cfg, a, c)
  {
  }

  /** Over any stretch of a history the tables only grow, and final payment rows stay as they are. */
  lemma {:induction false} LaterExtends(cfg: Config, log: seq<Event>, n: nat)
    requires n <= |log| && Replay(cfg, log).Some?
    ensures Replay(cfg, log[..n]).Some?
    ensures Extends(cfg, Replay(cfg, log[..n]).value, Replay(cfg, log).value)
    decreases |log|
  {
    if n < |log| {
      var m := |log| - 1;
      LaterExtends(cfg, log[..m], n);
      assert log[..m][..n] == log[..n];
      EventExtends(cfg, Replay(cfg, log[..m]).value, log[m]);
      ExtendsTransitive(cfg, Replay(cfg, log[..n]).value, Replay(cfg, log[..m]).value, Replay(cfg, log).value);
    } else {
      assert log[..n] == log;
    }
  }

  /** The tables before event `i`, and the step event `i` takes from them. */
  lemma ReplayAt(cfg: Config, log: seq<Event>, i: nat)
    requires i < |log| && Replay(cfg, log).Some?
    ensures Replay(cfg, log[..i]).Some?
    ensures Replay(cfg, log[..i + 1]) == ApplyEvent(cfg, Replay(cfg, log[..i]).value, log[i])
    ensures Replay(cfg, log[..i + 1]).Some?
  {
    ReplayPrefix(cfg, log, i);
    ReplayPrefix(cfg, log, i + 1);
    assert log[..i + 1][..i] == log[..i];
  }

  /** Once a refund of a payment has failed, no later event of the history refunds it: the FAILED row is the last. */
  lemma FailedRefundIsLast(cfg: Config, log: seq<Event>, i: nat, j: nat)
    requires !cfg.admin && Replay(cfg, log).Some?
    requires i < j < |log| && log[i].op.RefundOp? && log[j].op.RefundOp?
    requires log[i].req.RefundReq? && log[j].req.RefundReq?
    requires log[i].req.refund.paymentId == log[j].req.refund.paymentId
    ensures log[i].op.res.success
  {
    var p := log[i].req.refund.paymentId;
    ReplayAt(cfg, log, i);
    ReplayAt(cfg, log, j);
    var before, after := Replay(cfg, log[..i + 1]).value, Replay(cfg, log[..j]).value;
    assert Extends(cfg, before, after) by {
      LaterExtends(cfg, log[..j], i + 1);
      assert log[..j][..i + 1] == log[..i + 1];
    }
    RefundSets(cfg, Replay(cfg, log[..i]).value, log[i]);
    RefundSets(cfg, after, log[j]);
  }

  /** A refund starts from a refundable status and ends in one that shows its outcome. */
  lemma RefundSets(cfg: Config, db: Db, e: Event)
    requires e.op.RefundOp? && e.req.RefundReq? && ApplyEvent(cfg, db, e).Some?
    ensures e.req.refund.paymentId in db.payments && Refundable(db.payments[e.req.refund.paymentId].status)
    ensures e.req.refund.paymentId in ApplyEvent(cfg, db, e).value.payments
    ensures ApplyEvent(cfg, db, e).value.payments[e.req.refund.paymentId].status == RefundFailed <==> !e.op.res.success
  {
  }
}
