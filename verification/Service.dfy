/**
  The two services as the step-by-step procedures they are, over a store that commits or rolls back, one call at a time.

  Rows first: what a query returns, and the sum the services fold over it.
*/
module Rows {
  import opened Sums
  import opened Money
  import opened Domain
  import opened Lookups

  /** Each of `rows` is a refund row of payment `p`. */
  predicate Stored(refunds: map<Id, Refund>, p: Id, rows: seq<Refund>) {
    forall i :: 0 <= i < |rows| ==> rows[i].id in refunds && refunds[rows[i].id] == rows[i] && rows[i].paymentId == p
  }

  /** Newest first, no row twice. */
  predicate NewestFirst(rows: seq<Refund>) {
    forall i, j :: 0 <= i < j < |rows| ==> rows[i].id != rows[j].id && rows[i].createdAt >= rows[j].createdAt
  }

  predicate Complete(refunds: map<Id, Refund>, p: Id, rows: seq<Refund>) {
    forall r :: r in refunds && refunds[r].paymentId == p ==> refunds[r] in rows
  }

  /** `rows` are the refund rows of payment `p`, each once, newest first. */
  predicate RowsOf(refunds: map<Id, Refund>, p: Id, rows: seq<Refund>) {
    Stored(refunds, p, rows) && NewestFirst(rows) && Complete(refunds, p, rows)
  }

  ghost function ListTotal(rows: seq<Refund>): int {
    if rows == [] then 0
    else
      var r := rows[|rows| - 1];
      ListTotal(rows[..|rows| - 1]) + (if r.status == RefCompleted then r.amount else 0)
  }

  lemma RowsWithoutLast(refunds: map<Id, Refund>, p: Id, rows: seq<Refund>)
    requires RowsOf(refunds, p, rows) && rows != [] && forall r :: r in refunds ==> refunds[r].id == r
    ensures RowsOf(refunds - {rows[|rows| - 1].id}, p, rows[..|rows| - 1])
  {
    var n := |rows| - 1;
    assert forall i :: 0 <= i < n ==> rows[..n][i] == rows[i] && rows[i].id != rows[n].id;
    CompleteWithoutLast(refunds, p, rows);
  }

  lemma CompleteWithoutLast(refunds: map<Id, Refund>, p: Id, rows: seq<Refund>)
    requires Complete(refunds, p, rows) && rows != [] && forall r :: r in refunds ==> refunds[r].id == r
    ensures Complete(refunds - {rows[|rows| - 1].id}, p, rows[..|rows| - 1])
  {
    var n := |rows| - 1;
    var rest := refunds - {rows[n].id};
    forall r | r in rest && rest[r].paymentId == p
      ensures rest[r] in rows[..n]
    {
      assert refunds[r] in rows && refunds[r] != rows[n];
      assert rows == rows[..n] + [rows[n]];
    }
  }

  /** Folding over the rows, in the order the query returns them, gives the sum over the table. */
  lemma {:induction false} RowsTotal(refunds: map<Id, Refund>, p: Id, rows: seq<Refund>)
    requires RowsOf(refunds, p, rows) && forall r :: r in refunds ==> refunds[r].id == r
    ensures ListTotal(rows) == Total(refunds, p)
    decreases |rows|
  {
    if rows == [] {
      SumZero(refunds, CompletedOf(p));
    } else {
      var n := |rows| - 1;
      RowsWithoutLast(refunds, p, rows);
      RowsTotal(refunds - {rows[n].id}, p, rows[..n]);
      SumRemove(refunds, rows[n].id, CompletedOf(p));
    }
  }

  predicate NewestRow(refunds: map<Id, Refund>, ids: set<Id>, k: Id)
    requires ids <= refunds.Keys
  {
    k in ids && forall q :: q in ids ==> refunds[q].createdAt <= refunds[k].createdAt
  }

  /** SELECT ... FROM refunds WHERE payment_id = p ORDER BY created_at DESC, appended row by row. */
  method Select(refunds: map<Id, Refund>, p: Id) returns (rows: seq<Refund>)
    requires forall r :: r in refunds ==> refunds[r].id == r
    ensures RowsOf(refunds, p, rows)
  {
    rows := [];
    var left := set r | r in refunds && refunds[r].paymentId == p;
    while left != {}
      invariant left <= refunds.Keys && forall r :: r in left ==> refunds[r].paymentId == p
      invariant Stored(refunds, p, rows) && NewestFirst(rows)
      invariant forall i :: 0 <= i < |rows| ==> rows[i].id !in left
      invariant forall i, r :: 0 <= i < |rows| && r in left ==> rows[i].createdAt >= refunds[r].createdAt
      invariant forall r :: r in refunds && refunds[r].paymentId == p ==> r in left || refunds[r] in rows
      decreases left
    {
      ghost var newest := NewestExists(refunds, left, (r: Refund) => r.createdAt);
      assert NewestRow(refunds, left, newest);
      var k :| k in left && NewestRow(refunds, left, k);
      assert NewestRow(refunds, left, k);
      forall r | r in left
        ensures refunds[k].createdAt >= refunds[r].createdAt
      {
      }
      left := left - {k};
      rows := rows + [refunds[k]];
    }
  }

  /** The accumulating loop of the refund services, in decimal arithmetic. */
  method FoldCompleted(rows: seq<Refund>) returns (total: Decimal)
    ensures Scaled(total) && Units(total) == ListTotal(rows)
  {
    total := ZERO;
    for n := 0 to |rows|
      invariant Scaled(total) && Units(total) == ListTotal(rows[..n])
    {
      assert rows[..n + 1][..n] == rows[..n];
      if rows[n].status == RefCompleted {
        ArithmeticIsExact(total, FromUnits(rows[n].amount));
        UnitsOfColumn(rows[n].amount);
        total := Add(total, FromUnits(rows[n].amount));
      }
    }
    assert rows[..|rows|] == rows;
  }
}

/** What the services call outside the store: the clock, the UUID generator and the payment providers. */
module Surroundings {
  import opened Base
  import opened Routing
  import opened Domain

  datatype Sent =
    | ChargeSent(gateway: Gateway, amount: int, currency: string)
    | RefundSent(gateway: Gateway, chargeRef: Option<string>, amount: int, currency: string)

  /** The provider answers its n-th call with `outcomes(n)`, whatever that is. */
  class Runtime {
    const outcomes: nat -> GatewayResult
    var nextId: Id
    var clock: nat
    var sent: seq<Sent>

    constructor (outcomes: nat -> GatewayResult)
      ensures this.outcomes == outcomes && nextId == 0 && clock == 0 && sent == []
    {
      this.outcomes, nextId, clock, sent := outcomes, 0, 0, [];
    }

    method NewId() returns (id: Id)
      modifies this`nextId
      ensures id == old(nextId) && nextId == id + 1
    {
      id := nextId;
      nextId := nextId + 1;
    }

    method Now() returns (now: nat)
      modifies this`clock
      ensures now == old(clock) && clock == now + 1
    {
      now := clock;
      clock := clock + 1;
    }

    method Send(request: Sent) returns (res: GatewayResult)
      modifies this`sent
      ensures sent == old(sent) + [request] && res == outcomes(|old(sent)|)
    {
      res := outcomes(|sent|);
      sent := sent + [request];
    }
  }
}

/** The store: committed tables, and the tables as the open transaction sees them. */
module Stores {
  import opened Base
  import opened Domain
  import opened Lookups
  import opened Rows

  /** Rows are filed under their own ids. */
  predicate Keyed(db: Db) {
    && (forall p :: p in db.payments ==> db.payments[p].id == p)
    && (forall r :: r in db.refunds ==> db.refunds[r].id == r)
  }

  /** Neither the id nor the key of the row is taken. */
  predicate Insertable(db: Db, p: Payment) {
    p.id !in db.payments && (p.key.Some? ==> KeyFree(db, p.key.value))
  }

  /** The n-th call to the database fails if `faults(n)`; if also `lands(n)`, what it was to commit is committed. */
  class Store {
    const faults: nat -> bool
    const lands: nat -> bool
    var calls: nat
    var committed: Db
    var work: Db
    var inTx: bool

    constructor (faults: nat -> bool, lands: nat -> bool)
      ensures this.faults == faults && this.lands == lands && calls == 0 && committed == EMPTY_DB && !inTx
    {
      this.faults, this.lands, calls, committed, work, inTx := faults, lands, 0, EMPTY_DB, EMPTY_DB, false;
    }

    function View(): Db
      reads this
    {
      if inTx then work else committed
    }

    /** Did a database call fail since call number `from`? */
    ghost predicate FailedSince(from: nat)
      reads this
    {
      exists n :: from <= n < calls && faults(n)
    }

    /** Was the reply to a commit lost since call number `from`? */
    ghost predicate LostSince(from: nat)
      reads this
    {
      exists n :: from <= n < calls && faults(n) && lands(n)
    }

    /** Call number `n` does what it is to do: its reply arrives, or it commits by itself and its reply is lost. */
    predicate TakesEffect(n: nat)
      reads this
    {
      !faults(n) || (!inTx && lands(n))
    }

    method Fails() returns (failed: bool)
      modifies this`calls
      ensures calls == old(calls) + 1 && failed == faults(old(calls))
    {
      failed := faults(calls);
      calls := calls + 1;
    }

    /** A statement writes into the open transaction, or commits at once if there is none. */
    method Put(db: Db) returns (ok: bool)
      modifies this`calls, this`work, this`committed
      ensures calls == old(calls) + 1 && ok == !faults(old(calls))
      ensures inTx ==> committed == old(committed) && work == if ok then db else old(work)
      ensures !inTx ==> work == old(work) && committed == if TakesEffect(old(calls)) then db else old(committed)
    {
      var effective := TakesEffect(calls);
      var failed := Fails();
      if effective && inTx {
        work := db;
      } else if effective {
        committed := db;
      }
      ok := !failed;
    }

    method Begin() returns (ok: bool)
      requires !inTx
      modifies this
      ensures calls == old(calls) + 1 && ok == !faults(old(calls))
      ensures committed == old(committed) && inTx == ok && (ok ==> work == committed)
    {
      var failed := Fails();
      if !failed {
        work, inTx := committed, true;
      }
      ok := !failed;
    }

    /** The transaction is over even if the database did not hear of it. */
    method Rollback() returns (ok: bool)
      requires inTx
      modifies this`calls, this`inTx
      ensures calls == old(calls) + 1 && !inTx
    {
      var failed := Fails();
      inTx := false;
      ok := !failed;
    }

    method Commit() returns (ok: bool)
      requires inTx
      modifies this`calls, this`inTx, this`committed
      ensures calls == old(calls) + 1 && !inTx && ok == !faults(old(calls))
      ensures committed == if TakesEffect(old(calls)) then work else old(committed)
    {
      inTx := false;
      var effective := TakesEffect(calls);
      var failed := Fails();
      if effective {
        committed := work;
      }
      ok := !failed;
    }

    /** Also GetPaymentForUpdate: with one call at a time there is no one to wait for. */
    method GetPayment(id: Id) returns (r: Result<Option<Payment>, Error>)
      modifies this`calls
      ensures calls == old(calls) + 1 && r.Fail? == faults(old(calls)) && (r.Fail? ==> r.error == StoreFailure)
      ensures r.Ok? ==> r.value == if id in View().payments then Some(View().payments[id]) else None
    {
      var failed := Fails();
      if failed {
        return Fail(StoreFailure);
      }
      r := Ok(if id in View().payments then Some(View().payments[id]) else None);
    }

    method GetPaymentByIdempotencyKey(key: string) returns (r: Result<Option<Payment>, Error>)
      requires Keyed(View())
      modifies this`calls
      ensures calls == old(calls) + 1 && r.Fail? == faults(old(calls)) && (r.Fail? ==> r.error == StoreFailure)
      ensures r.Ok? && r.value.None? ==> KeyLookup(View(), key, None)
      ensures r.Ok? && r.value.Some? ==>
                var p := r.value.value;
                p.id in View().payments && View().payments[p.id] == p && KeyLookup(View(), key, Some(p.id))
      ensures r == Ok(None) <==> r.Ok? && forall q :: q in View().payments ==> View().payments[q].key != Some(key)
      ensures r.Ok? && r.value.Some? ==>
                && r.value.value.key == Some(key)
                && forall q :: q in View().payments && View().payments[q].key == Some(key) ==>
                  View().payments[q].createdAt <= r.value.value.createdAt
    {
      var failed := Fails();
      if failed {
        return Fail(StoreFailure);
      }
      if KeyLookup(View(), key, None) {
        return Ok(None);
      }
      ghost var found := KeyLookupAnswers(View(), key);
      assert found.Some? && KeyLookup(View(), key, Some(found.value));
      var p :| p in View().payments && KeyLookup(View(), key, Some(p));
      r := Ok(Some(View().payments[p]));
    }

    method GetPaymentByOrderID(orderId: string) returns (r: Result<Option<Payment>, Error>)
      requires Keyed(View())
      modifies this`calls
      ensures calls == old(calls) + 1 && r.Fail? == faults(old(calls)) && (r.Fail? ==> r.error == StoreFailure)
      ensures r.Ok? && r.value.None? ==> OrderLookup(View(), orderId, None)
      ensures r.Ok? && r.value.Some? ==>
                var p := r.value.value;
                p.id in View().payments && View().payments[p.id] == p && OrderLookup(View(), orderId, Some(p.id))
      ensures r == Ok(None) <==> r.Ok? && forall q :: q in View().payments ==> View().payments[q].orderId != orderId
      ensures r.Ok? && r.value.Some? ==>
                && r.value.value.orderId == orderId
                && forall q :: q in View().payments && View().payments[q].orderId == orderId ==>
                  View().payments[q].createdAt <= r.value.value.createdAt
    {
      var failed := Fails();
      if failed {
        return Fail(StoreFailure);
      }
      if OrderLookup(View(), orderId, None) {
        return Ok(None);
      }
      ghost var found := OrderLookupAnswers(View(), orderId);
      assert found.Some? && OrderLookup(View(), orderId, Some(found.value));
      var p :| p in View().payments && OrderLookup(View(), orderId, Some(p));
      r := Ok(Some(View().payments[p]));
    }

    method GetRefundByCorrelationID(corr: string) returns (r: Result<Option<Refund>, Error>)
      requires Keyed(View())
      modifies this`calls
      ensures calls == old(calls) + 1 && r.Fail? == faults(old(calls)) && (r.Fail? ==> r.error == StoreFailure)
      ensures r.Ok? && r.value.None? ==> CorrelationLookup(View(), corr, None)
      ensures r.Ok? && r.value.Some? ==>
                var q := r.value.value;
                q.id in View().refunds && View().refunds[q.id] == q && CorrelationLookup(View(), corr, Some(q.id))
      ensures r == Ok(None) <==>
                r.Ok? && forall q :: q in View().refunds ==> View().refunds[q].correlationId != Some(corr)
      ensures r.Ok? && r.value.Some? ==>
                && r.value.value.correlationId == Some(corr)
                && forall q :: q in View().refunds && View().refunds[q].correlationId == Some(corr) ==>
                  View().refunds[q].createdAt <= r.value.value.createdAt
    {
      var failed := Fails();
      if failed {
        return Fail(StoreFailure);
      }
      if CorrelationLookup(View(), corr, None) {
        return Ok(None);
      }
      ghost var found := CorrelationLookupAnswers(View(), corr);
      assert found.Some? && CorrelationLookup(View(), corr, Some(found.value));
      var q :| q in View().refunds && CorrelationLookup(View(), corr, Some(q));
      r := Ok(Some(View().refunds[q]));
    }

    method GetRefundsByPayment(p: Id) returns (r: Result<seq<Refund>, Error>)
      requires Keyed(View())
      modifies this`calls
      ensures calls == old(calls) + 1 && r.Fail? == faults(old(calls)) && (r.Fail? ==> r.error == StoreFailure)
      ensures r.Ok? ==> RowsOf(View().refunds, p, r.value)
    {
      var failed := Fails();
      if failed {
        return Fail(StoreFailure);
      }
      var rows := Select(View().refunds, p);
      r := Ok(rows);
    }

    /** INSERT under the primary key and the unique index on idempotency keys. */
    method CreatePayment(p: Payment) returns (err: Option<Error>)
      modifies this
      ensures calls == old(calls) + 1 && inTx == old(inTx) && (inTx ==> committed == old(committed))
      ensures err == None <==> FitsNumeric(p.amount) && Insertable(old(View()), p) && !faults(old(calls))
      ensures err.Some? ==> err.value in {StoreFailure, UniqueViolation}
      ensures err == Some(UniqueViolation) <==>
                FitsNumeric(p.amount) && !Insertable(old(View()), p) && !faults(old(calls))
      ensures View() == if FitsNumeric(p.amount) && Insertable(old(View()), p) && TakesEffect(old(calls))
                        then old(View()).(payments := old(View()).payments[p.id := p])
                        else old(View())
    {
      if !FitsNumeric(p.amount) || !Insertable(View(), p) {
        var failed := Fails();
        return Some(if failed || !FitsNumeric(p.amount) then StoreFailure else UniqueViolation);
      }
      var ok := Put(View().(payments := View().payments[p.id := p]));
      err := if ok then None else Some(StoreFailure);
    }

    /** UPDATE of every column of the row; no such row is an error. */
    method UpdatePayment(p: Payment) returns (err: Option<Error>)
      modifies this
      ensures calls == old(calls) + 1 && inTx == old(inTx) && (inTx ==> committed == old(committed))
      ensures err == None <==> p.id in old(View()).payments && !faults(old(calls))
      ensures err.Some? ==> err.value == StoreFailure
      ensures View() == if p.id in old(View()).payments && TakesEffect(old(calls))
                        then old(View()).(payments := old(View()).payments[p.id := p])
                        else old(View())
    {
      if p.id !in View().payments {
        var _ := Fails();
        return Some(StoreFailure);
      }
      var ok := Put(View().(payments := View().payments[p.id := p]));
      err := if ok then None else Some(StoreFailure);
    }

    method CreateRefund(r: Refund) returns (err: Option<Error>)
      modifies this
      ensures calls == old(calls) + 1 && inTx == old(inTx) && (inTx ==> committed == old(committed))
      ensures err == None <==> r.id !in old(View()).refunds && !faults(old(calls))
      ensures err.Some? ==> err.value == StoreFailure
      ensures View() == if r.id !in old(View()).refunds && TakesEffect(old(calls))
                        then old(View()).(refunds := old(View()).refunds[r.id := r])
                        else old(View())
    {
      if r.id in View().refunds {
        var _ := Fails();
        return Some(StoreFailure);
      }
      var ok := Put(View().(refunds := View().refunds[r.id := r]));
      err := if ok then None else Some(StoreFailure);
    }

    method UpdateRefund(r: Refund) returns (err: Option<Error>)
      modifies this
      ensures calls == old(calls) + 1 && inTx == old(inTx) && (inTx ==> committed == old(committed))
      ensures err == None <==> r.id in old(View()).refunds && !faults(old(calls))
      ensures err.Some? ==> err.value == StoreFailure
      ensures View() == if r.id in old(View()).refunds && TakesEffect(old(calls))
                        then old(View()).(refunds := old(View()).refunds[r.id := r])
                        else old(View())
    {
      if r.id !in View().refunds {
        var _ := Fails();
        return Some(StoreFailure);
      }
      var ok := Put(View().(refunds := View().refunds[r.id := r]));
      err := if ok then None else Some(StoreFailure);
    }

    method CreateTransaction(t: Txn) returns (err: Option<Error>)
      modifies this
      ensures calls == old(calls) + 1 && inTx == old(inTx) && (inTx ==> committed == old(committed))
      ensures err == None <==> t.id !in old(View()).txns && !faults(old(calls))
      ensures err.Some? ==> err.value == StoreFailure
      ensures View() == if t.id !in old(View()).txns && TakesEffect(old(calls))
                        then old(View()).(txns := old(View()).txns[t.id := t])
                        else old(View())
    {
      if t.id in View().txns {
        var _ := Fails();
        return Some(StoreFailure);
      }
      var ok := Put(View().(txns := View().txns[t.id := t]));
      err := if ok then None else Some(StoreFailure);
    }
  }
}

/** PaymentService and RefundService, each procedure proved to be its atomic operation, or to have changed nothing. */
module Services {
  import opened Base
  import opened Text
  import opened Money
  import opened Routing
  import opened Domain
  import opened Ledger
  import opened Rows
  import opened Records
  import opened Surroundings
  import opened Stores

  predicate IdsBelow(db: Db, n: Id) {
    && (forall p :: p in db.payments ==> p < n)
    && (forall r :: r in db.refunds ==> r < n)
    && (forall t :: t in db.txns ==> t < n)
  }

  /** What a call finds when it begins. */
  datatype Moment = Moment(db: Db, sent: seq<Sent>, nextId: Id, clock: nat)

  ghost function Now(store: Store, runtime: Runtime): Moment
    reads store, runtime
  {
    Moment(store.committed, runtime.sent, runtime.nextId, runtime.clock)
  }

  function ConfigOf(router: Router): Config {
    Config(router, true, false, false, false, false, false, false, false)
  }

  lemma Overwrite<K, V>(m: map<K, V>, k: K, a: V, b: V)
    ensures m[k := a][k := b] == m[k := b]
  {
  }

  /** The writes of an accepted refund, one after the other, amount to the atomic refund. */
  lemma Assembled(router: Router, db: Db, a: RefundArgs, draft: Refund, payment: Payment, g: Gateway,
                  tid: Id, res: GatewayResult, db': Db, settled: Refund)
    requires RefundCheck(router, db, a) == Ok((payment, g)) && payment.id == a.paymentId
    requires draft == NewRefund(a, draft.id, draft.createdAt, payment.currency) && draft.id !in db.refunds
    requires tid !in db.txns
    requires settled == Settled(draft.(status := RefProcessing), res)
    requires var remaining := payment.amount - Total(db.refunds, a.paymentId);
             var locked := payment.(status := RefundPending).(status := StatusAfter(a.amount, remaining, res));
             db' == Db(db.payments[a.paymentId := payment.(status := RefundPending)][a.paymentId := locked],
                       db.refunds[draft.id := draft.(status := RefProcessing)][draft.id := settled],
                       db.txns[tid := RefundRow(a, draft.id, tid, payment.currency, res)])
    ensures AtomicRefund(router, db, a, draft.id, tid, draft.createdAt, res) == Ok((db', settled))
  {
    Overwrite(db.refunds, draft.id, draft.(status := RefProcessing), settled);
    Overwrite(db.payments, a.paymentId, payment.(status := RefundPending), db'.payments[a.paymentId]);
  }

  /** What a refund call may answer on tables `db`, and the tables it leaves. */
  ghost predicate RefundAnswer(router: Router, db: Db, a: RefundArgs, rid: Id, tid: Id, now: nat, res: GatewayResult,
                               resp: Response, db': Db) {
    match resp
    case RefundMade(r) => NotYetRefunded(db, a) && AtomicRefund(router, db, a, rid, tid, now, res) == Ok((db', r))
    case RefundFound(_) => db' == db && ReadSpec(ConfigOf(router), db, RefundReq(a), resp)
    case Rejected(_) => db' == db && NotYetRefunded(db, a) && ReadSpec(ConfigOf(router), db, RefundReq(a), resp)
    case _ => false
  }

  /** The atomic refund is in the tables although its call could not say so. */
  ghost predicate RefundLands(router: Router, db: Db, a: RefundArgs, rid: Id, tid: Id, now: nat, res: GatewayResult,
                              db': Db) {
    NotYetRefunded(db, a) && AtomicRefund(router, db, a, rid, tid, now, res).Ok?
    && AtomicRefund(router, db, a, rid, tid, now, res).value.0 == db'
  }

  /** Exactly one refund was sent: to the gateway of the payment, against its charge, in its currency. */
  predicate SentFor(router: Router, db: Db, a: RefundArgs, before: seq<Sent>, after: seq<Sent>) {
    && a.paymentId in db.payments
    && var row := db.payments[a.paymentId];
       var key := Lower(row.gateway);
       Offers(router, key)
       && after == before + [RefundSent(router.gateways[key], row.gatewayTxn, a.amount, row.currency)]
  }

  /**
    What a refund call that began at `was` leaves: what its answer says, with one gateway call if it refunded and none
    if not; or, if it reports a store failure, the same tables or those of the atomic refund.
  */
  ghost predicate RefundOutcome(router: Router, was: Moment, a: RefundArgs, res: GatewayResult, resp: Response, db': Db,
                                after: seq<Sent>) {
    var rid, tid, now := was.nextId, was.nextId + 1, was.clock;
    || (resp == Rejected(StoreFailure) && db' == was.db)
    || (resp == Rejected(StoreFailure) && SentFor(router, was.db, a, was.sent, after)
        && RefundLands(router, was.db, a, rid, tid, now, res, db'))
    || (resp != Rejected(StoreFailure) && RefundAnswer(router, was.db, a, rid, tid, now, res, resp, db')
        && if resp.RefundMade? then SentFor(router, was.db, a, was.sent, after) else after == was.sent)
  }

  /** An answer read is such an outcome. */
  lemma ReadOutcome(router: Router, was: Moment, a: RefundArgs, res: GatewayResult, resp: Response)
    requires resp != Rejected(StoreFailure) ==> ReadSpec(ConfigOf(router), was.db, RefundReq(a), resp)
    requires resp != Rejected(StoreFailure) && !resp.RefundFound? ==> NotYetRefunded(was.db, a)
    ensures RefundOutcome(router, was, a, res, resp, was.db, was.sent)
  {
  }

  /** So is a refund that was made and sent, whether its call can say so or not. */
  lemma MadeOutcome(router: Router, was: Moment, a: RefundArgs, res: GatewayResult, r: Refund, db': Db,
                    payment: Payment, g: Gateway, after: seq<Sent>)
    requires NotYetRefunded(was.db, a) && RefundPrecheck(router, was.db, a) == Ok((payment, g))
    requires after == was.sent + [RefundSent(g, payment.gatewayTxn, a.amount, payment.currency)]
    requires AtomicRefund(router, was.db, a, was.nextId, was.nextId + 1, was.clock, res) == Ok((db', r))
    ensures RefundOutcome(router, was, a, res, RefundMade(r), db', after)
    ensures RefundOutcome(router, was, a, res, Rejected(StoreFailure), db', after)
  {
    assert SentFor(router, was.db, a, was.sent, after);
  }

  /** And a refund that was refused under the lock, or failed. */
  lemma RefusedOutcome(router: Router, was: Moment, a: RefundArgs, res: GatewayResult, e: Error, after: seq<Sent>)
    requires NotYetRefunded(was.db, a)
    requires e != StoreFailure ==> RefundCheck(router, was.db, a) == Fail(e) && after == was.sent
    ensures RefundOutcome(router, was, a, res, Rejected(e), was.db, after)
  {
  }

  /** What an outcome says of the rows and of the reasons, without the procedure. */
  lemma RefundExplained(router: Router, was: Moment, a: RefundArgs, res: GatewayResult, resp: Response, db': Db,
                        after: seq<Sent>)
    requires RefundOutcome(router, was, a, res, resp, db', after)
    ensures resp.RefundMade? ==>
              && NotYetRefunded(was.db, a) && (forall e :: !RefusedBecause(router, was.db, a, e))
              && RefundLeaves(was.db, a, was.nextId, was.nextId + 1, was.clock, res, resp.refund, db')
    ensures resp.Rejected? && resp.error != StoreFailure ==>
              NotYetRefunded(was.db, a) && RefusedBecause(router, was.db, a, resp.error) && db' == was.db
  {
    if resp.RefundMade? {
      RefundWrites(router, was.db, a, was.nextId, was.nextId + 1, was.clock, res, db', resp.refund);
      forall e
        ensures !RefusedBecause(router, was.db, a, e)
      {
        RefusedIffBecause(router, was.db, a, e);
      }
    } else if resp.Rejected? {
      RefusedIffBecause(router, was.db, a, resp.error);
    }
  }

  function RefundResponse(r: Result<Refund, Error>): Response {
    if r.Ok? then RefundMade(r.value) else Rejected(r.error)
  }

  ghost predicate Filed(db: Db, n: Id) {
    Keyed(db) && IdsBelow(db, n)
  }

  /** The next id is free, and using it up leaves the rows below the one after it. */
  lemma NextIsFree(db: Db, n: Id)
    requires Filed(db, n)
    ensures n !in db.payments && n !in db.refunds && Filed(db, n + 1)
  {
  }

  lemma RefundKeepsFiled(router: Router, db: Db, a: RefundArgs, rid: Id, tid: Id, now: nat, res: GatewayResult,
                         db': Db, r: Refund, n: Id)
    requires AtomicRefund(router, db, a, rid, tid, now, res) == Ok((db', r))
    requires Filed(db, n) && rid < n && tid < n
    ensures Filed(db', n)
  {
  }

  /** What the closure leaves if its call now commits, loses the reply to its commit, or rolls back. */
  lemma PersistOutcome(router: Router, was: Moment, a: RefundArgs, res: GatewayResult, draft: Refund, payment: Payment,
                       g: Gateway, err: Option<Error>, settled: Refund, work: Db, after: seq<Sent>, n: Id)
    requires NotYetRefunded(was.db, a) && RefundPrecheck(router, was.db, a) == Ok((payment, g))
    requires draft == NewRefund(a, was.nextId, was.clock, payment.currency)
    requires Filed(was.db, was.nextId + 1) && was.nextId + 1 <= n
    requires err.Some? && err.value != StoreFailure ==>
               RefundCheck(router, was.db, a) == Fail(err.value) && after == was.sent
    requires err == None ==>
               && n == was.nextId + 2
               && after == was.sent + [RefundSent(g, payment.gatewayTxn, a.amount, payment.currency)]
               && AtomicRefund(router, was.db, a, draft.id, was.nextId + 1, draft.createdAt, res) == Ok((work, settled))
    ensures Filed(was.db, n) && (err == None ==> Filed(work, n))
    ensures err.Some? ==> RefundOutcome(router, was, a, res, Rejected(err.value), was.db, after)
    ensures err == None ==>
              && RefundOutcome(router, was, a, res, RefundMade(settled), work, after)
              && RefundOutcome(router, was, a, res, Rejected(StoreFailure), work, after)
              && RefundOutcome(router, was, a, res, Rejected(StoreFailure), was.db, after)
  {
    if err.Some? {
      RefusedOutcome(router, was, a, res, err.value, after);
    } else {
      MadeOutcome(router, was, a, res, settled, work, payment, g, after);
      RefusedOutcome(router, was, a, res, StoreFailure, after);
      RefundKeepsFiled(router, was.db, a, was.nextId, was.nextId + 1, was.clock, res, work, settled, n);
    }
  }

  /** That is an event of a history: whatever holds of all histories holds of what the procedure commits. */
  lemma RefundAnswerIsEvent(router: Router, db: Db, a: RefundArgs, rid: Id, tid: Id, now: nat, res: GatewayResult,
                            gi: nat, resp: Response, db': Db)
    requires ValidRefund(a) && RefundAnswer(router, db, a, rid, tid, now, res, resp, db')
    ensures var op := if resp.RefundMade? then RefundOp(rid, tid, now, res, gi) else ReadOp;
            ApplyEvent(ConfigOf(router), db, Event(0, RefundReq(a), op, resp)) == Some(db')
  {
  }

  lemma RefundAnswerKeeps(router: Router, db: Db, a: RefundArgs, rid: Id, tid: Id, now: nat, res: GatewayResult,
                          resp: Response, db': Db)
    requires DbInv(db) && ValidRefund(a) && RefundAnswer(router, db, a, rid, tid, now, res, resp, db')
    ensures DbInv(db')
  {
    RefundAnswerIsEvent(router, db, a, rid, tid, now, res, 0, resp, db');
    var op := if resp.RefundMade? then RefundOp(rid, tid, now, res, 0) else ReadOp;
    EventKeeps(ConfigOf(router), db, Event(0, RefundReq(a), op, resp));
  }

  lemma RefundLandsKeeps(router: Router, db: Db, a: RefundArgs, rid: Id, tid: Id, now: nat, res: GatewayResult,
                         db': Db)
    requires DbInv(db) && ValidRefund(a) && RefundLands(router, db, a, rid, tid, now, res, db')
    ensures DbInv(db')
  {
    var r := AtomicRefund(router, db, a, rid, tid, now, res).value.1;
    RefundAnswerKeeps(router, db, a, rid, tid, now, res, RefundMade(r), db');
  }

  /** Hence every outcome keeps the money invariants, also one that the call could not report. */
  lemma RefundKeepsLedger(router: Router, was: Moment, a: RefundArgs, res: GatewayResult, resp: Response, db': Db,
                          after: seq<Sent>)
    requires DbInv(was.db) && ValidRefund(a) && RefundOutcome(router, was, a, res, resp, db', after)
    ensures DbInv(db')
  {
    if resp != Rejected(StoreFailure) {
      RefundAnswerKeeps(router, was.db, a, was.nextId, was.nextId + 1, was.clock, res, resp, db');
    } else if db' != was.db {
      RefundLandsKeeps(router, was.db, a, was.nextId, was.nextId + 1, was.clock, res, db');
    }
  }

  class RefundService {
    const store: Store
    const runtime: Runtime
    const router: Router

    constructor (store: Store, runtime: Runtime, router: Router)
      ensures this.store == store && this.runtime == runtime && this.router == router
    {
      this.store, this.runtime, this.router := store, runtime, router;
    }

    ghost predicate Ready()
      reads store, runtime
    {
      !store.inTx && Filed(store.committed, runtime.nextId)
    }

    /** The checks under the lock: the locked row and what remains of it, or why the refund is refused. */
    method Recheck(paymentId: Id, amount: Decimal) returns (r: Result<(Payment, Decimal), Error>)
      requires store.inTx && Keyed(store.work) && Scaled(amount)
      modifies store`calls
      ensures old(store.calls) <= store.calls
      ensures r.Ok? ==>
                && paymentId in store.work.payments && r.value.0 == store.work.payments[paymentId]
                && Refundable(r.value.0.status)
                && Scaled(r.value.1) && Units(amount) <= Units(r.value.1)
                && Units(r.value.1) == r.value.0.amount - Total(store.work.refunds, paymentId)
      ensures r.Fail? ==> r.error in {StoreFailure, RefundNotAllowed, RefundExceedsRemaining}
      ensures r == Fail(StoreFailure) ==> store.FailedSince(old(store.calls)) || paymentId !in store.work.payments
      ensures r == Fail(RefundNotAllowed) ==>
                paymentId in store.work.payments && !Refundable(store.work.payments[paymentId].status)
      ensures r == Fail(RefundExceedsRemaining) ==>
                && paymentId in store.work.payments
                && Units(amount) > store.work.payments[paymentId].amount - Total(store.work.refunds, paymentId)
    {
      var found := store.GetPayment(paymentId);
      if found.Fail? || found.value.None? {
        return Fail(StoreFailure);
      }
      var locked := found.value.value;
      if !Refundable(locked.status) {
        return Fail(RefundNotAllowed);
      }
      var existing := store.GetRefundsByPayment(paymentId);
      if existing.Fail? {
        return Fail(StoreFailure);
      }
      RowsTotal(store.work.refunds, paymentId, existing.value);
      var totalRefunded := FoldCompleted(existing.value);
      UnitsOfColumn(locked.amount);
      ArithmeticIsExact(FromUnits(locked.amount), totalRefunded);
      var remaining := Sub(FromUnits(locked.amount), totalRefunded);
      ArithmeticIsExact(amount, remaining);
      if Cmp(amount, remaining) > 0 {
        return Fail(RefundExceedsRemaining);
      }
      r := Ok((locked, remaining));
    }

    /** The refund and the payment as the gateway's answer leaves them. */
    method Settle(refund: Refund, locked: Payment, amount: Decimal, remaining: Decimal, res: GatewayResult)
      returns (r: Refund, p: Payment)
      requires Scaled(amount) && Scaled(remaining)
      ensures r == Settled(refund, res) && p == locked.(status := StatusAfter(Units(amount), Units(remaining), res))
    {
      r, p := refund, locked;
      ArithmeticIsExact(amount, remaining);
      if res.success {
        r := r.(status := RefCompleted, gatewayRefund := NullString(res.ref));
        r := r.(failureReason := None, failureCode := None);
        if Cmp(amount, remaining) >= 0 {
          p := p.(status := Refunded);
        } else {
          p := p.(status := Completed);
        }
      } else {
        r := r.(status := RefFailed);
        r := r.(failureCode := NullString(res.code), failureReason := NullString(res.message));
        p := p.(status := RefundFailed);
      }
    }

    /** The refund row is created and both rows are marked, before the gateway is asked. */
    method Open(draft: Refund, read: Payment) returns (err: Option<Error>, refund: Refund, locked: Payment)
      requires store.inTx && draft.id !in store.work.refunds && read.id in store.work.payments
      modifies store
      ensures store.inTx && store.committed == old(store.committed) && old(store.calls) <= store.calls
      ensures refund == draft.(status := RefProcessing) || err.Some?
      ensures locked == read.(status := RefundPending) || err.Some?
      ensures err.Some? ==> err.value == StoreFailure && store.FailedSince(old(store.calls))
      ensures err == None ==>
                store.work == old(store.work).(payments := old(store.work).payments[read.id := locked],
                                               refunds := old(store.work).refunds[draft.id := refund])
    {
      refund, locked := draft, read;
      err := store.CreateRefund(refund);
      if err.Some? {
        return;
      }
      locked := locked.(status := RefundPending);
      err := store.UpdatePayment(locked);
      if err.Some? {
        return;
      }
      refund := refund.(status := RefProcessing);
      Overwrite(old(store.work).refunds, draft.id, draft, refund);
      err := store.UpdateRefund(refund);
    }

    /** The audit row, and both rows as the gateway's answer leaves them. */
    method Close(row: Txn, processing: Refund, pending: Payment, amount: Decimal, remaining: Decimal,
                 res: GatewayResult)
      returns (err: Option<Error>, refund: Refund)
      requires store.inTx && Scaled(amount) && Scaled(remaining)
      requires row.id !in store.work.txns && processing.id in store.work.refunds && pending.id in store.work.payments
      modifies store
      ensures store.inTx && store.committed == old(store.committed) && old(store.calls) <= store.calls
      ensures err.Some? ==> err.value == StoreFailure && store.FailedSince(old(store.calls))
      ensures err == None ==>
                && refund == Settled(processing, res)
                && var locked := pending.(status := StatusAfter(Units(amount), Units(remaining), res));
                   store.work == Db(old(store.work).payments[pending.id := locked],
                                    old(store.work).refunds[processing.id := refund],
                                    old(store.work).txns[row.id := row])
    {
      refund := processing;
      err := store.CreateTransaction(row);
      if err.Some? {
        return;
      }
      var locked;
      refund, locked := Settle(processing, pending, amount, remaining, res);
      err := store.UpdatePayment(locked);
      if err.Some? {
        return;
      }
      err := store.UpdateRefund(refund);
    }

    /** All the writes of an accepted refund, and the gateway call between them. */
    method Write(a: RefundArgs, amount: Decimal, draft: Refund, locked: Payment, g: Gateway, remaining: Decimal)
      returns (err: Option<Error>, settled: Refund)
      requires store.inTx && Keyed(store.work) && IdsBelow(store.work, runtime.nextId) && store.work == store.committed
      requires Scaled(amount) && a.amount == Units(amount)
      requires RefundCheck(router, store.work, a) == Ok((locked, g))
      requires Scaled(remaining) && Units(remaining) == locked.amount - Total(store.work.refunds, a.paymentId)
      requires draft == NewRefund(a, draft.id, draft.createdAt, locked.currency) && draft.id !in store.work.refunds
      modifies store, runtime`nextId, runtime`sent
      ensures store.inTx && store.committed == old(store.committed)
      ensures old(store.calls) <= store.calls && old(runtime.nextId) <= runtime.nextId <= old(runtime.nextId) + 1
      ensures err.Some? ==> err.value == StoreFailure && store.FailedSince(old(store.calls))
      ensures err == None ==>
                && runtime.nextId == old(runtime.nextId) + 1
                && runtime.sent == old(runtime.sent) + [RefundSent(g, locked.gatewayTxn, a.amount, locked.currency)]
                && var res := runtime.outcomes(|old(runtime.sent)|);
                   AtomicRefund(router, store.committed, a, draft.id, old(runtime.nextId), draft.createdAt, res)
                   == Ok((store.work, settled))
    {
      settled := draft;
      var refund, pending;
      err, refund, pending := Open(draft, locked);
      if err.Some? {
        return;
      }
      var res := runtime.Send(RefundSent(g, pending.gatewayTxn, a.amount, pending.currency));
      var tid := runtime.NewId();
      var row := Txn(tid, a.paymentId, Some(refund.id), RefundTxn, Units(amount), locked.currency, res.success,
                     NullString(res.ref), NullString(res.code), NullString(res.message), NullString(a.correlationId));
      err, settled := Close(row, refund, pending, amount, remaining, res);
      if err == None {
        Assembled(router, store.committed, a, draft, locked, g, tid, res, store.work, settled);
      }
    }

    /** The closure run inside the transaction. */
    method Persist(a: RefundArgs, amount: Decimal, draft: Refund, payment: Payment, g: Gateway)
      returns (err: Option<Error>, settled: Refund)
      requires store.inTx && Keyed(store.work) && IdsBelow(store.work, runtime.nextId) && store.work == store.committed
      requires Scaled(amount) && a.amount == Units(amount)
      requires RefundPrecheck(router, store.work, a) == Ok((payment, g))
      requires draft == NewRefund(a, draft.id, draft.createdAt, payment.currency) && draft.id !in store.work.refunds
      modifies store, runtime`nextId, runtime`sent
      ensures store.inTx && store.committed == old(store.committed)
      ensures old(store.calls) <= store.calls && old(runtime.nextId) <= runtime.nextId <= old(runtime.nextId) + 1
      ensures err == Some(StoreFailure) ==> store.FailedSince(old(store.calls))
      ensures err.Some? && err.value != StoreFailure ==>
                RefundCheck(router, store.committed, a) == Fail(err.value) && runtime.sent == old(runtime.sent)
      ensures err == None ==>
                && runtime.nextId == old(runtime.nextId) + 1
                && runtime.sent == old(runtime.sent) + [RefundSent(g, payment.gatewayTxn, a.amount, payment.currency)]
                && var res := runtime.outcomes(|old(runtime.sent)|);
                   AtomicRefund(router, store.committed, a, draft.id, old(runtime.nextId), draft.createdAt, res)
                   == Ok((store.work, settled))
    {
      var checked := Recheck(a.paymentId, amount);
      if checked.Fail? {
        return Some(checked.error), draft;
      }
      err, settled := Write(a, amount, draft, checked.value.0, g, checked.value.1);
    }

    /**
      RunInTx of the closure: all of the atomic refund is committed, or nothing; after a failure it is committed only if
      the reply to the commit was lost.
    */
    method RunInTx(a: RefundArgs, amount: Decimal, draft: Refund, payment: Payment, g: Gateway, ghost was: Moment)
      returns (r: Result<Refund, Error>)
      requires Ready() && Scaled(amount) && a.amount == Units(amount)
      requires RefundPrecheck(router, store.committed, a) == Ok((payment, g)) && NotYetRefunded(store.committed, a)
      requires draft == NewRefund(a, was.nextId, was.clock, payment.currency) && draft.id !in store.committed.refunds
      requires was.db == store.committed && was.sent == runtime.sent && was.nextId + 1 == runtime.nextId
      modifies store, runtime`nextId, runtime`sent
      ensures Ready() && old(store.calls) <= store.calls
      ensures r == Fail(StoreFailure) ==> store.FailedSince(old(store.calls))
      ensures r.Fail? && store.committed != was.db ==> store.LostSince(old(store.calls))
      ensures RefundOutcome(router, was, a, runtime.outcomes(|was.sent|), RefundResponse(r), store.committed,
                            runtime.sent)
    {
      ghost var res := runtime.outcomes(|was.sent|);
      RefusedOutcome(router, was, a, res, StoreFailure, was.sent);
      var ok := store.Begin();
      if !ok {
        return Fail(StoreFailure);
      }
      var err, refund := Persist(a, amount, draft, payment, g);
      PersistOutcome(router, was, a, res, draft, payment, g, err, refund, store.work, runtime.sent, runtime.nextId);
      if err.Some? {
        ok := store.Rollback();
        return Fail(err.value);
      }
      ok := store.Commit();
      r := if ok then Ok(refund) else Fail(StoreFailure);
    }

    /** The unlocked reads: an answer already, or the payment and the gateway to refund it with. */
    method Prepare(a: RefundArgs) returns (answer: Option<Response>, refundable: Option<(Payment, Gateway)>)
      requires Ready()
      modifies store`calls
      ensures old(store.calls) <= store.calls
      ensures answer == Some(Rejected(StoreFailure)) ==> store.FailedSince(old(store.calls))
      ensures answer.Some? && answer.value != Rejected(StoreFailure) ==>
                ReadSpec(ConfigOf(router), store.committed, RefundReq(a), answer.value)
      ensures answer.Some? && answer.value != Rejected(StoreFailure) && !answer.value.RefundFound? ==>
                NotYetRefunded(store.committed, a)
      ensures answer.Some? ==> !answer.value.RefundMade?
      ensures answer.None? ==> NotYetRefunded(store.committed, a) && refundable.Some?
      ensures answer.None? ==> RefundPrecheck(router, store.committed, a) == Ok(refundable.value)
    {
      refundable := None;
      if Trim(a.correlationId) != "" {
        var existing := store.GetRefundByCorrelationID(a.correlationId);
        if existing.Fail? {
          return Some(Rejected(StoreFailure)), None;
        }
        if existing.value.Some? {
          return Some(RefundFound(existing.value.value)), None;
        }
      }
      var found := store.GetPayment(a.paymentId);
      if found.Fail? {
        return Some(Rejected(StoreFailure)), None;
      }
      if found.value.None? {
        return Some(Rejected(PaymentNotFound)), None;
      }
      var payment := found.value.value;
      if !Refundable(payment.status) {
        return Some(Rejected(RefundNotAllowed)), None;
      }
      var routed := GetGateway(router, payment.gateway);
      if routed.Fail? {
        return Some(Rejected(routed.error)), None;
      }
      answer, refundable := None, Some((payment, routed.value));
    }

    /** The row of a new refund. */
    method Draft(a: RefundArgs, amount: Decimal, currency: string) returns (refund: Refund)
      requires Scaled(amount) && a.amount == Units(amount)
      modifies runtime`nextId, runtime`clock
      ensures refund == NewRefund(a, old(runtime.nextId), old(runtime.clock), currency)
      ensures runtime.nextId == old(runtime.nextId) + 1
    {
      var now := runtime.Now();
      var id := runtime.NewId();
      refund := Refund(id, a.paymentId, Units(amount), currency, RefPending, NullString(a.reason),
                       NullString(a.initiatedBy), None, None, None, now, NullString(a.correlationId));
    }

    /** From drawing the refund's id to the answer. */
    method Execute(a: RefundArgs, amount: Decimal, payment: Payment, g: Gateway, ghost was: Moment)
      returns (r: Result<Refund, Error>)
      requires Ready() && Scaled(amount) && a.amount == Units(amount) && was == Now(store, runtime)
      requires RefundPrecheck(router, store.committed, a) == Ok((payment, g)) && NotYetRefunded(store.committed, a)
      modifies store, runtime
      ensures Ready() && old(store.calls) <= store.calls
      ensures r == Fail(StoreFailure) ==> store.FailedSince(old(store.calls))
      ensures r.Fail? && store.committed != was.db ==> store.LostSince(old(store.calls))
      ensures RefundOutcome(router, was, a, runtime.outcomes(|was.sent|), RefundResponse(r), store.committed,
                            runtime.sent)
    {
      NextIsFree(store.committed, runtime.nextId);
      var refund := Draft(a, amount, payment.currency);
      r := RunInTx(a, amount, refund, payment, g, was);
    }

    /**
      The whole procedure is the atomic refund, or changes nothing. If it reports a store failure, nothing changed or
      the reply to its commit was lost, and then the tables are those of the atomic refund.
    */
    method ProcessRefund(paymentId: Id, amount: Decimal, reason: string, initiatedBy: string, correlationId: string)
      returns (resp: Response)
      requires Ready() && Scaled(amount)
      modifies store, runtime
      ensures Ready()
      ensures resp == Rejected(StoreFailure) ==> store.FailedSince(old(store.calls))
      ensures resp.Rejected? && store.committed != old(store.committed) ==> store.LostSince(old(store.calls))
      ensures RefundOutcome(router, old(Now(store, runtime)),
                            RefundArgs(paymentId, Units(amount), reason, initiatedBy, correlationId),
                            runtime.outcomes(|old(runtime.sent)|), resp, store.committed, runtime.sent)
      ensures resp.RefundMade? ==>
                var a := RefundArgs(paymentId, Units(amount), reason, initiatedBy, correlationId);
                && (forall e :: !RefusedBecause(router, old(store.committed), a, e))
                && RefundLeaves(old(store.committed), a, old(runtime.nextId), old(runtime.nextId) + 1,
                                old(runtime.clock), runtime.outcomes(|old(runtime.sent)|), resp.refund,
                                store.committed)
      ensures resp.Rejected? && resp.error != StoreFailure ==>
                var a := RefundArgs(paymentId, Units(amount), reason, initiatedBy, correlationId);
                && RefusedBecause(router, old(store.committed), a, resp.error)
                && store.committed == old(store.committed) && runtime.sent == old(runtime.sent)
    {
      var a := RefundArgs(paymentId, Units(amount), reason, initiatedBy, correlationId);
      ghost var was := Now(store, runtime);
      var answer, refundable := Prepare(a);
      if answer.Some? {
        resp := answer.value;
        ReadOutcome(router, was, a, runtime.outcomes(|was.sent|), resp);
      } else {
        var (payment, g) := refundable.value;
        var done := Execute(a, amount, payment, g, was);
        resp := RefundResponse(done);
      }
      RefundExplained(router, was, a, runtime.outcomes(|was.sent|), resp, store.committed, runtime.sent);
    }

    /** What the payment page shows as refunded is the sum the cap is about. */
    method GetTotalRefunded(paymentId: Id) returns (r: Result<Decimal, Error>)
      requires Ready()
      modifies store`calls
      ensures r.Fail? ==> store.FailedSince(old(store.calls))
      ensures r.Ok? ==> Scaled(r.value) && Units(r.value) == Total(store.committed.refunds, paymentId)
    {
      var rows := store.GetRefundsByPayment(paymentId);
      if rows.Fail? {
        return Fail(rows.error);
      }
      RowsTotal(store.committed.refunds, paymentId, rows.value);
      var total := FoldCompleted(rows.value);
      r := Ok(total);
    }
  }

  /** What a payment call may answer on tables `db`, and the tables it leaves. */
  ghost predicate PayAnswer(router: Router, db: Db, a: PayArgs, pid: Id, tid: Id, now: nat, res: GatewayResult,
                            resp: Response, db': Db) {
    match resp
    case Paid(p) => AtomicCharge(router, db, a, pid, tid, now, res) == Ok((db', p))
    case _ => db' == db && ReadSpec(ConfigOf(router), db, PayReq(a), resp)
  }

  /** The atomic charge is in the tables although its call could not say so. */
  ghost predicate ChargeLands(router: Router, db: Db, a: PayArgs, pid: Id, tid: Id, now: nat, res: GatewayResult,
                              db': Db) {
    && AtomicCharge(router, db, a, pid, tid, now, res).Ok?
    && AtomicCharge(router, db, a, pid, tid, now, res).value.0 == db'
  }

  /**
    What a payment call that began at `was` leaves: what its answer says; or, if it reports a store failure, the same
    tables or those of the atomic charge.
  */
  ghost predicate PayOutcome(router: Router, was: Moment, a: PayArgs, res: GatewayResult, resp: Response, db': Db) {
    var pid, tid, now := was.nextId, was.nextId + 1, was.clock;
    || (resp == Rejected(StoreFailure) && db' == was.db)
    || (resp == Rejected(StoreFailure) && ChargeLands(router, was.db, a, pid, tid, now, res, db'))
    || (resp != Rejected(StoreFailure) && PayAnswer(router, was.db, a, pid, tid, now, res, resp, db'))
  }

  /** An answer read is such an outcome, and so is a failure that changed nothing. */
  lemma PayReadOutcome(router: Router, was: Moment, a: PayArgs, res: GatewayResult, resp: Response)
    requires !resp.Paid? && (resp != Rejected(StoreFailure) ==> ReadSpec(ConfigOf(router), was.db, PayReq(a), resp))
    ensures PayOutcome(router, was, a, res, resp, was.db)
  {
  }

  /** So is a payment that was made, whether its call can say so or not. */
  lemma PaidOutcome(router: Router, was: Moment, a: PayArgs, res: GatewayResult, p: Payment, db': Db)
    requires AtomicCharge(router, was.db, a, was.nextId, was.nextId + 1, was.clock, res) == Ok((db', p))
    ensures PayOutcome(router, was, a, res, Paid(p), db')
    ensures PayOutcome(router, was, a, res, Rejected(StoreFailure), db')
  {
  }

  /**
    One charge was sent, to the gateway asked for by name or to the default, after the lookups by key and by order let
    the call pass.
  */
  ghost predicate ChargedOnce(router: Router, db: Db, a: PayArgs, before: seq<Sent>, after: seq<Sent>) {
    && MayCharge(db, a)
    && var key := AskedKey(router.defaultName, a.gateway);
       Offers(router, key) && after == before + [ChargeSent(router.gateways[key], a.amount, Upper(Trim(a.currency)))]
  }

  /** The payment a call is answered with: the holder of its key if there is one, else the live payment of its order. */
  ghost predicate FoundBy(db: Db, a: PayArgs, p: Payment) {
    && p.id in db.payments && db.payments[p.id] == p
    && if Trim(a.key) == "" || KeyFree(db, a.key) then
         p.status == Completed && p.orderId == a.orderId && NewestOfOrder(db, p.id)
       else p.key == Some(a.key)
  }

  /** The rows of a payment made, and the gateway it was made with. */
  lemma ChargeExplained(router: Router, db: Db, a: PayArgs, pid: Id, tid: Id, now: nat, res: GatewayResult, p: Payment,
                        db': Db)
    requires AtomicCharge(router, db, a, pid, tid, now, res) == Ok((db', p))
    ensures var key := AskedKey(router.defaultName, a.gateway);
      Offers(router, key) && ChargeLeaves(db, a, pid, tid, now, router.gateways[key], res, p, db')
  {
    var g := ChargeWrites(router, db, a, pid, tid, now, res, db', p);
  }

  lemma PaidIsAtomic(router: Router, was: Moment, a: PayArgs, res: GatewayResult, p: Payment, db': Db)
    requires PayOutcome(router, was, a, res, Paid(p), db')
    ensures AtomicCharge(router, was.db, a, was.nextId, was.nextId + 1, was.clock, res) == Ok((db', p))
  {
  }

  /** The reason an outcome gives for a refusal. */
  lemma PayRefusalExplained(router: Router, was: Moment, a: PayArgs, res: GatewayResult, e: Error, db': Db)
    requires PayOutcome(router, was, a, res, Rejected(e), db') && e != StoreFailure
    ensures PaymentRefusedBecause(router, was.db, a, e) && db' == was.db
  {
    PaymentRefusalHasReason(ConfigOf(router), was.db, a, e);
  }

  /** The newest payment of the order is COMPLETED. */
  ghost predicate NewestIsLive(db: Db, orderId: string) {
    forall latest :: OrderLookup(db, orderId, latest) ==> latest.Some? && db.payments[latest.value].status == Completed
  }

  /**
    So a replay of a trimmed key, a call for a live order and a call for a gateway that is not there send no charge.
  */
  lemma ReplaySendsNone(router: Router, db: Db, a: PayArgs, before: seq<Sent>, after: seq<Sent>)
    requires after == before || ChargedOnce(router, db, a, before, after)
    requires || (Trimmed(a.key) && a.key != "" && !KeyFree(db, a.key))
             || NewestIsLive(db, a.orderId)
             || !Offers(router, AskedKey(router.defaultName, a.gateway))
    ensures after == before
  {
    TrimmedIffFixed(a.key);
  }

  lemma ChargeKeepsFiled(router: Router, db: Db, a: PayArgs, pid: Id, tid: Id, now: nat, res: GatewayResult, db': Db,
                         p: Payment, n: Id)
    requires AtomicCharge(router, db, a, pid, tid, now, res) == Ok((db', p))
    requires Filed(db, n) && pid < n && tid < n
    ensures Filed(db', n)
  {
  }

  /** The writes of a payment, one after the other, amount to the atomic charge. */
  lemma ChargeAssembled(router: Router, db: Db, a: PayArgs, draft: Payment, g: Gateway, tid: Id, res: GatewayResult,
                        db': Db, settled: Payment)
    requires GetGatewayOrDefault(router, a.gateway) == Ok(g) && FitsNumeric(a.amount)
    requires draft == NewPayment(a, draft.id, draft.createdAt, g.name) && draft.id !in db.payments && tid !in db.txns
    requires draft.key.Some? ==> KeyFree(db, draft.key.value)
    requires settled == Charged(draft.(status := Processing), res)
    requires var processing := draft.(status := Processing);
             db' == Db(db.payments[draft.id := draft][draft.id := processing][draft.id := settled], db.refunds,
                       db.txns[tid := ChargeRow(a, processing, tid, res)])
    ensures AtomicCharge(router, db, a, draft.id, tid, draft.createdAt, res) == Ok((db', settled))
  {
    var processing := draft.(status := Processing);
    Overwrite(db.payments, draft.id, draft, processing);
    Overwrite(db.payments, draft.id, processing, settled);
  }

  lemma PayAnswerIsEvent(router: Router, db: Db, a: PayArgs, pid: Id, tid: Id, now: nat, res: GatewayResult, gi: nat,
                         resp: Response, db': Db)
    requires ValidPay(a) && PayAnswer(router, db, a, pid, tid, now, res, resp, db')
    ensures var op := if resp.Paid? then ChargeOp(pid, tid, now, res, gi) else ReadOp;
            ApplyEvent(ConfigOf(router), db, Event(0, PayReq(a), op, resp)) == Some(db')
  {
  }

  lemma PayAnswerKeeps(router: Router, db: Db, a: PayArgs, pid: Id, tid: Id, now: nat, res: GatewayResult,
                       resp: Response, db': Db)
    requires DbInv(db) && ValidPay(a) && PayAnswer(router, db, a, pid, tid, now, res, resp, db')
    ensures DbInv(db')
  {
    PayAnswerIsEvent(router, db, a, pid, tid, now, res, 0, resp, db');
    var op := if resp.Paid? then ChargeOp(pid, tid, now, res, 0) else ReadOp;
    EventKeeps(ConfigOf(router), db, Event(0, PayReq(a), op, resp));
  }

  lemma ChargeLandsKeeps(router: Router, db: Db, a: PayArgs, pid: Id, tid: Id, now: nat, res: GatewayResult, db': Db)
    requires DbInv(db) && ValidPay(a) && ChargeLands(router, db, a, pid, tid, now, res, db')
    ensures DbInv(db')
  {
    var p := AtomicCharge(router, db, a, pid, tid, now, res).value.1;
    PayAnswerKeeps(router, db, a, pid, tid, now, res, Paid(p), db');
  }

  /** Every outcome of a payment keeps the money invariants, also one that the call could not report. */
  lemma PayKeepsLedger(router: Router, was: Moment, a: PayArgs, res: GatewayResult, resp: Response, db': Db)
    requires DbInv(was.db) && ValidPay(a) && PayOutcome(router, was, a, res, resp, db')
    ensures DbInv(db')
  {
    if resp != Rejected(StoreFailure) {
      PayAnswerKeeps(router, was.db, a, was.nextId, was.nextId + 1, was.clock, res, resp, db');
    } else if db' != was.db {
      ChargeLandsKeeps(router, was.db, a, was.nextId, was.nextId + 1, was.clock, res, db');
    }
  }

  /** What the closure leaves if its call now commits, loses the reply to its commit, or rolls back. */
  lemma ChargeOutcome(router: Router, was: Moment, a: PayArgs, res: GatewayResult, draft: Payment, g: Gateway,
                      err: Option<Error>, settled: Payment, work: Db, n: Id)
    requires draft == NewPayment(a, was.nextId, was.clock, g.name)
    requires Filed(was.db, was.nextId + 1) && was.nextId + 1 <= n
    requires err == None ==>
               && n == was.nextId + 2
               && AtomicCharge(router, was.db, a, draft.id, was.nextId + 1, draft.createdAt, res) == Ok((work, settled))
    ensures Filed(was.db, n) && PayOutcome(router, was, a, res, Rejected(StoreFailure), was.db)
    ensures err == None ==>
              && AtomicCharge(router, was.db, a, was.nextId, was.nextId + 1, was.clock, res) == Ok((work, settled))
              && Filed(work, n) && PayOutcome(router, was, a, res, Rejected(StoreFailure), work)
  {
    PayReadOutcome(router, was, a, res, Rejected(StoreFailure));
    if err == None {
      PaidOutcome(router, was, a, res, settled, work);
      ChargeKeepsFiled(router, was.db, a, was.nextId, was.nextId + 1, was.clock, res, work, settled, n);
    }
  }

  class PaymentService {
    const store: Store
    const runtime: Runtime
    const router: Router

    constructor (store: Store, runtime: Runtime, router: Router)
      ensures this.store == store && this.runtime == runtime && this.router == router
    {
      this.store, this.runtime, this.router := store, runtime, router;
    }

    ghost predicate Ready()
      reads store, runtime
    {
      !store.inTx && Filed(store.committed, runtime.nextId)
    }

    /** The payment as the gateway's answer leaves it. */
    method Settle(payment: Payment, res: GatewayResult) returns (p: Payment)
      ensures p == Charged(payment, res)
    {
      p := payment;
      if res.success {
        p := p.(status := Completed);
        p := p.(gatewayTxn := NullString(res.ref), gatewayIntent := NullString(res.intent));
        p := p.(failureReason := None, failureCode := None);
      } else {
        p := p.(status := Failed);
        p := p.(failureCode := NullString(res.code), failureReason := NullString(res.message));
      }
    }

    /** persistProcessedPayment */
    method Persist(a: PayArgs, draft: Payment, g: Gateway, res: GatewayResult)
    returns (err: Option<Error>, settled: Payment)
      requires store.inTx && Filed(store.work, runtime.nextId) && store.work == store.committed
      requires GetGatewayOrDefault(router, a.gateway) == Ok(g)
      requires draft == NewPayment(a, draft.id, draft.createdAt, g.name) && draft.id !in store.work.payments
      modifies store, runtime`nextId
      ensures store.inTx && store.committed == old(store.committed) && old(store.calls) <= store.calls
      ensures old(runtime.nextId) <= runtime.nextId <= old(runtime.nextId) + 1
      ensures err == Some(StoreFailure) ==> store.FailedSince(old(store.calls)) || !FitsNumeric(a.amount)
      ensures err.Some? && err.value != StoreFailure ==>
                err.value == UniqueViolation && NullString(a.key).Some?
                  && !KeyFree(store.committed, NullString(a.key).value)
      ensures err == None ==>
                && runtime.nextId == old(runtime.nextId) + 1
                && AtomicCharge(router, store.committed, a, draft.id, old(runtime.nextId), draft.createdAt, res)
                   == Ok((store.work, settled))
    {
      var payment := draft;
      settled := draft;
      err := store.CreatePayment(payment);
      if err.Some? {
        return;
      }
      payment := payment.(status := Processing);
      err := store.UpdatePayment(payment);
      if err.Some? {
        return;
      }
      var tid := runtime.NewId();
      err := store.CreateTransaction(
        Txn(tid, payment.id, None, Charge, payment.amount, payment.currency, res.success,
            NullString(res.ref), NullString(res.code), NullString(res.message), NullString(a.correlationId)));
      if err.Some? {
        return;
      }
      payment := Settle(payment, res);
      err := store.UpdatePayment(payment);
      settled := payment;
      if err == None {
        ChargeAssembled(router, store.committed, a, draft, g, tid, res, store.work, settled);
      }
    }

    /** The reads before the gateway call: an answer already, or the gateway to charge. */
    method Prepare(a: PayArgs) returns (answer: Option<Response>, g: Option<Gateway>)
      requires Ready()
      modifies store`calls
      ensures old(store.calls) <= store.calls
      ensures answer == Some(Rejected(StoreFailure)) ==> store.FailedSince(old(store.calls))
      ensures answer.Some? ==> !answer.value.Paid?
      ensures answer.Some? && answer.value != Rejected(StoreFailure) ==>
                ReadSpec(ConfigOf(router), store.committed, PayReq(a), answer.value)
      ensures answer.Some? && answer.value.PaymentFound? ==> FoundBy(store.committed, a, answer.value.found)
      ensures answer.Some? && answer.value.Rejected? && answer.value.error != StoreFailure ==>
                MayCharge(store.committed, a)
      ensures answer.None? ==>
                g.Some? && GetGatewayOrDefault(router, a.gateway) == Ok(g.value) && MayCharge(store.committed, a)
    {
      g := None;
      if Trim(a.key) != "" {
        var existing := store.GetPaymentByIdempotencyKey(a.key);
        if existing.Fail? {
          return Some(Rejected(StoreFailure)), None;
        }
        if existing.value.Some? {
          return Some(PaymentFound(existing.value.value)), None;
        }
      }
      var latest := store.GetPaymentByOrderID(a.orderId);
      if latest.Fail? {
        return Some(Rejected(StoreFailure)), None;
      }
      if latest.value.Some? && latest.value.value.status == Completed {
        return Some(PaymentFound(latest.value.value)), None;
      }
      assert NotLive(store.committed, a.orderId, if latest.value.Some? then Some(latest.value.value.id) else None);
      var routed := GetGatewayOrDefault(router, a.gateway);
      if routed.Fail? {
        return Some(Rejected(routed.error)), None;
      }
      answer, g := None, Some(routed.value);
    }

    /**
      RunInTx of the closure: all of the atomic charge is committed, or nothing; after a failure it is committed only if
      the reply to the commit was lost.
    */
    method RunInTx(a: PayArgs, draft: Payment, g: Gateway, res: GatewayResult, ghost was: Moment)
      returns (r: Result<Payment, Error>)
      requires Ready() && GetGatewayOrDefault(router, a.gateway) == Ok(g)
      requires draft == NewPayment(a, was.nextId, was.clock, g.name) && draft.id !in store.committed.payments
      requires was.db == store.committed && was.nextId + 1 == runtime.nextId
      modifies store, runtime`nextId
      ensures Ready() && old(store.calls) <= store.calls
      ensures r.Fail? && store.committed != was.db ==> r.error == StoreFailure && store.LostSince(old(store.calls))
      ensures r == Fail(StoreFailure) ==> store.FailedSince(old(store.calls)) || !FitsNumeric(a.amount)
      ensures r == Fail(StoreFailure) ==> PayOutcome(router, was, a, res, Rejected(StoreFailure), store.committed)
      ensures r.Fail? && r.error != StoreFailure ==>
                r.error == UniqueViolation && NullString(a.key).Some?
                  && !KeyFree(store.committed, NullString(a.key).value)
      ensures r.Ok? ==>
                AtomicCharge(router, was.db, a, was.nextId, was.nextId + 1, was.clock, res)
                == Ok((store.committed, r.value))
    {
      PayReadOutcome(router, was, a, res, Rejected(StoreFailure));
      var ok := store.Begin();
      if !ok {
        return Fail(StoreFailure);
      }
      var err, payment := Persist(a, draft, g, res);
      ChargeOutcome(router, was, a, res, draft, g, err, payment, store.work, runtime.nextId);
      if err.Some? {
        ok := store.Rollback();
        return Fail(err.value);
      }
      ok := store.Commit();
      r := if ok then Ok(payment) else Fail(StoreFailure);
    }

    /** After the transaction failed with `e`: the holder of the key if that was why, `e` otherwise. */
    method Recover(a: PayArgs, e: Error) returns (resp: Response)
      requires Ready()
      requires e == UniqueViolation ==> NullString(a.key).Some? && !KeyFree(store.committed, NullString(a.key).value)
      requires e == UniqueViolation || e == StoreFailure
      modifies store`calls
      ensures old(store.calls) <= store.calls
      ensures e == StoreFailure ==> resp == Rejected(StoreFailure)
      ensures e == UniqueViolation ==> ReadSpec(ConfigOf(router), store.committed, PayReq(a), resp)
      ensures e == UniqueViolation ==> resp == Rejected(UniqueViolation) || resp.PaymentFound?
      ensures resp.PaymentFound? ==> FoundBy(store.committed, a, resp.found)
      ensures resp == Rejected(UniqueViolation) ==>
                store.FailedSince(old(store.calls)) || KeyLookup(store.committed, a.key, None)
    {
      if e == UniqueViolation && Trim(a.key) != "" {
        var existing := store.GetPaymentByIdempotencyKey(a.key);
        if existing.Ok? && existing.value.Some? {
          return PaymentFound(existing.value.value);
        }
      }
      resp := Rejected(e);
    }

    /** The transaction, and the recovery if a key violation ended it. */
    method Save(a: PayArgs, draft: Payment, g: Gateway, res: GatewayResult, ghost was: Moment) returns (resp: Response)
      requires Ready() && GetGatewayOrDefault(router, a.gateway) == Ok(g)
      requires draft == NewPayment(a, was.nextId, was.clock, g.name) && draft.id !in store.committed.payments
      requires was.db == store.committed && was.nextId + 1 == runtime.nextId
      modifies store, runtime`nextId
      ensures Ready() && old(store.calls) <= store.calls
      ensures resp == Rejected(StoreFailure) ==> store.FailedSince(old(store.calls)) || !FitsNumeric(a.amount)
      ensures resp.Rejected? && store.committed != was.db ==> store.LostSince(old(store.calls))
      ensures PayOutcome(router, was, a, res, resp, store.committed)
      ensures resp.PaymentFound? ==> FoundBy(was.db, a, resp.found)
    {
      var done := RunInTx(a, draft, g, res, was);
      if done.Ok? {
        PaidOutcome(router, was, a, res, done.value, store.committed);
        resp := Paid(done.value);
      } else {
        resp := Recover(a, done.error);
        if done.error == UniqueViolation {
          PayReadOutcome(router, was, a, res, resp);
        }
      }
    }

    /** The row of a new payment. */
    method Draft(a: PayArgs, gateway: string) returns (payment: Payment)
      modifies runtime`nextId, runtime`clock
      ensures payment == NewPayment(a, old(runtime.nextId), old(runtime.clock), gateway)
      ensures runtime.nextId == old(runtime.nextId) + 1
    {
      var now := runtime.Now();
      var id := runtime.NewId();
      var currency := Upper(Trim(a.currency));
      payment := Payment(id, a.orderId, a.customerId, a.amount, currency, Pending, gateway,
                         None, None, None, None, now, NullString(a.correlationId), NullString(a.key));
    }

    /** From drawing the payment's id to the answer. */
    method Execute(a: PayArgs, g: Gateway, ghost was: Moment) returns (resp: Response)
      requires Ready() && GetGatewayOrDefault(router, a.gateway) == Ok(g) && was == Now(store, runtime)
      modifies store, runtime
      ensures Ready() && old(store.calls) <= store.calls
      ensures resp == Rejected(StoreFailure) ==> store.FailedSince(old(store.calls)) || !FitsNumeric(a.amount)
      ensures resp.Rejected? && store.committed != was.db ==> store.LostSince(old(store.calls))
      ensures PayOutcome(router, was, a, runtime.outcomes(|was.sent|), resp, store.committed)
      ensures resp.PaymentFound? ==> FoundBy(was.db, a, resp.found)
      ensures runtime.sent == was.sent + [ChargeSent(g, a.amount, Upper(Trim(a.currency)))]
    {
      NextIsFree(store.committed, runtime.nextId);
      var payment := Draft(a, g.name);
      var res := runtime.Send(ChargeSent(g, a.amount, payment.currency));
      resp := Save(a, payment, g, res, was);
    }

    /**
      The whole procedure is the atomic charge, or changes nothing. If it reports a store failure, nothing changed or
      the reply to its commit was lost, and then the tables are those of the atomic charge.
    */
    method ProcessPayment(orderId: string, customerId: string, amount: Decimal, currency: string, gateway: string,
                          correlationId: string, idempotencyKey: string)
      returns (resp: Response)
      requires Ready() && Scaled(amount)
      modifies store, runtime
      ensures Ready()
      ensures resp == Rejected(StoreFailure) ==> store.FailedSince(old(store.calls)) || !FitsNumeric(Units(amount))
      ensures resp.Rejected? && store.committed != old(store.committed) ==> store.LostSince(old(store.calls))
      ensures store.committed != old(store.committed) ==> runtime.sent != old(runtime.sent)
      ensures var a := PayArgs(orderId, customerId, Units(amount), currency, gateway, correlationId, idempotencyKey);
              && PayOutcome(router, old(Now(store, runtime)), a, runtime.outcomes(|old(runtime.sent)|), resp,
                            store.committed)
              && (runtime.sent == old(runtime.sent)
                  || ChargedOnce(router, old(store.committed), a, old(runtime.sent), runtime.sent))
      ensures resp.Paid? ==>
                var a := PayArgs(orderId, customerId, Units(amount), currency, gateway, correlationId, idempotencyKey);
                var key := AskedKey(router.defaultName, gateway);
                && Offers(router, key)
                && ChargeLeaves(old(store.committed), a, old(runtime.nextId), old(runtime.nextId) + 1,
                                old(runtime.clock), router.gateways[key], runtime.outcomes(|old(runtime.sent)|),
                                resp.payment, store.committed)
      ensures resp.PaymentFound? ==>
                var a := PayArgs(orderId, customerId, Units(amount), currency, gateway, correlationId, idempotencyKey);
                FoundBy(old(store.committed), a, resp.found)
      ensures resp.Rejected? && resp.error != StoreFailure ==>
                var a := PayArgs(orderId, customerId, Units(amount), currency, gateway, correlationId, idempotencyKey);
                && PaymentRefusedBecause(router, old(store.committed), a, resp.error)
                && MayCharge(old(store.committed), a) && store.committed == old(store.committed)
    {
      var a := PayArgs(orderId, customerId, Units(amount), currency, gateway, correlationId, idempotencyKey);
      ghost var was := Now(store, runtime);
      var answer, g := Prepare(a);
      if answer.Some? {
        resp := answer.value;
        PayReadOutcome(router, was, a, runtime.outcomes(|was.sent|), resp);
      } else {
        ChoosesAsked(router, a.gateway);
        resp := Execute(a, g.value, was);
      }
      ghost var res := runtime.outcomes(|was.sent|);
      if resp.Paid? {
        PaidIsAtomic(router, was, a, res, resp.payment, store.committed);
        ChargeExplained(router, was.db, a, was.nextId, was.nextId + 1, was.clock, res, resp.payment, store.committed);
      } else if resp.Rejected? && resp.error != StoreFailure {
        PayRefusalExplained(router, was, a, res, resp.error, store.committed);
      }
    }

    /** UpdatePaymentStatus writes whatever status it is given; if it fails it may have written it all the same. */
    method UpdatePaymentStatus(paymentId: Id, status: PaymentStatus) returns (resp: Response)
      requires Ready()
      modifies store
      ensures Ready()
      ensures resp == Rejected(StoreFailure) ==> store.FailedSince(old(store.calls))
      ensures resp == Rejected(StoreFailure) && store.committed != old(store.committed) ==>
                && store.LostSince(old(store.calls))
                && AtomicStatus(old(store.committed), paymentId, status).Ok?
                && store.committed == AtomicStatus(old(store.committed), paymentId, status).value.0
      ensures resp != Rejected(StoreFailure) ==>
                match AtomicStatus(old(store.committed), paymentId, status)
                case Ok((db, p)) => resp == StatusSet(p) && store.committed == db
                case Fail(e) => resp == Rejected(e) && store.committed == old(store.committed)
      ensures resp.StatusSet? <==> resp != Rejected(StoreFailure) && paymentId in old(store.committed).payments
      ensures resp.StatusSet? ==>
                && resp.updated == old(store.committed).payments[paymentId].(status := status)
                && store.committed == Db(old(store.committed).payments[paymentId := resp.updated],
                                         old(store.committed).refunds, old(store.committed).txns)
      ensures resp.StatusSet? || resp == Rejected(StoreFailure) || resp == Rejected(PaymentNotFound)
    {
      var found := store.GetPayment(paymentId);
      if found.Fail? {
        return Rejected(StoreFailure);
      }
      if found.value.None? {
        return Rejected(PaymentNotFound);
      }
      var payment := found.value.value.(status := status);
      var err := store.UpdatePayment(payment);
      resp := if err.Some? then Rejected(err.value) else StatusSet(payment);
    }
  }
}
