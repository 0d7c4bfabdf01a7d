/**
  The Java refund procedure, one request at a time: the contract the Go service took over and must keep.

  Java passes absent texts as null where Go passes the empty string, keeps texts as they are where Go trims them, finds
  gateways by their exact names where Go ignores case, and checks what remains before it looks for the gateway.
*/
module JavaRefund {
  import opened Base
  import opened Text
  import opened Money
  import opened Sums
  import opened Routing
  import opened Domain
  import opened Ledger
  import opened Rows
  import opened Surroundings
  import opened Stores
  import opened Services
  import opened SerialRefunds

  datatype JavaArgs = JavaArgs(
    paymentId: Id, amount: Decimal, reason: Option<string>, initiatedBy: Option<string>, correlationId: Option<string>)

  datatype JavaResult = JavaResult(success: bool, ref: Option<string>, code: Option<string>, message: Option<string>)

  // ---------- How Go's inputs correspond to Java's ----------

  function TextOf(s: string): Option<string> {
    if s == "" then None else Some(s)
  }

  predicate SameArgs(a: RefundArgs, j: JavaArgs) {
    && Scaled(j.amount) && a.amount == Units(j.amount) && a.paymentId == j.paymentId
    && Trimmed(a.reason) && j.reason == TextOf(a.reason)
    && Trimmed(a.initiatedBy) && j.initiatedBy == TextOf(a.initiatedBy)
    && Trimmed(a.correlationId) && j.correlationId == TextOf(a.correlationId)
  }

  predicate SameResult(res: GatewayResult, jres: JavaResult) {
    && res.success == jres.success
    && Trimmed(res.ref) && jres.ref == TextOf(res.ref)
    && Trimmed(res.code) && jres.code == TextOf(res.code)
    && Trimmed(res.message) && jres.message == TextOf(res.message)
  }

  /** A trimmed text is stored alike by both. */
  lemma StoredAlike(s: string)
    requires Trimmed(s)
    ensures NullString(s) == TextOf(s)
  {
    TrimmedIffFixed(s);
  }

  /** Every payment names a gateway registered under exactly that name, which Go finds under it as well. */
  predicate Registered(gateways: map<string, Gateway>, router: Router, db: Db) {
    forall p :: p in db.payments ==>
      var name := db.payments[p].gateway;
      name in gateways && Lower(name) in router.gateways && router.gateways[Lower(name)] == gateways[name]
  }

  /** Is `i` the last of `gs` that is named exactly `name`? */
  ghost predicate LastExact(gs: seq<Gateway>, name: string, i: int) {
    0 <= i < |gs| && gs[i].name == name && forall j :: i < j < |gs| ==> gs[j].name != name
  }

  /** PaymentGatewayRouter.init */
  method RegisterGateways(gs: seq<Gateway>) returns (m: map<string, Gateway>)
    ensures forall name, i :: LastExact(gs, name, i) ==> name in m && m[name] == gs[i]
    ensures forall name :: name in m ==> exists i :: LastExact(gs, name, i)
  {
    m := map[];
    for n := 0 to |gs|
      invariant forall name, i :: LastExact(gs[..n], name, i) ==> name in m && m[name] == gs[i]
      invariant forall name :: name in m ==> exists i :: LastExact(gs[..n], name, i)
    {
      ghost var seen := gs[..n + 1];
      assert forall i :: 0 <= i < n ==> seen[i] == gs[..n][i];
      m := m[gs[n].name := gs[n]];
      assert LastExact(seen, gs[n].name, n);
      forall name | name in m
        ensures exists i :: LastExact(seen, name, i)
      {
        if name != gs[n].name {
          var i :| LastExact(gs[..n], name, i);
          assert LastExact(seen, name, i);
        }
      }
      forall name, i | LastExact(seen, name, i)
        ensures name in m && m[name] == gs[i]
      {
        if i < n {
          assert LastExact(gs[..n], name, i);
        }
      }
    }
    assert gs[..|gs|] == gs;
  }

  /**
    Both routers, built from the same gateways with names that differ by more than case, find the same gateway under a
    registered name.
  */
  lemma RoutersAgree(gs: seq<Gateway>, java: map<string, Gateway>, router: Router, name: string)
    requires forall i, j :: 0 <= i < j < |gs| ==> Lower(gs[i].name) != Lower(gs[j].name)
    requires forall k, i :: LastNamed(seq(|gs|, n requires 0 <= n < |gs| => Some(gs[n])), k, i) ==>
               k in router.gateways && router.gateways[k] == gs[i]
    requires forall exact, i :: LastExact(gs, exact, i) ==> exact in java && java[exact] == gs[i]
    requires name in java && exists i :: LastExact(gs, name, i)
    ensures Lower(name) in router.gateways && router.gateways[Lower(name)] == java[name]
  {
    var i :| LastExact(gs, name, i);
    var known := seq(|gs|, n requires 0 <= n < |gs| => Some(gs[n]));
    assert LastNamed(known, Lower(name), i);
  }

  // ---------- What the procedure does, on Java's own values ----------

  predicate Matches(db: Db, corr: string, r: Id) {
    r in db.refunds && db.refunds[r].correlationId == Some(corr)
  }

  /** The lookup that Java makes for an id that is not null finds nothing. */
  ghost predicate IsNew(db: Db, j: JavaArgs) {
    j.correlationId.Some? ==> forall r :: !Matches(db, j.correlationId.value, r)
  }

  /** What remains of payment `p` of the tables. */
  ghost function Remaining(db: Db, p: Id): Decimal
    requires p in db.payments
  {
    FromUnits(db.payments[p].amount - Total(db.refunds, p))
  }

  /** Why the refund is refused, in the order of Java's checks. */
  ghost function Refusal(gateways: map<string, Gateway>, db: Db, j: JavaArgs): Option<Error> {
    if j.paymentId !in db.payments then Some(PaymentNotFound)
    else
      var p := db.payments[j.paymentId];
      if !Refundable(p.status) then Some(RefundNotAllowed)
      else if Cmp(j.amount, Remaining(db, j.paymentId)) > 0 then Some(RefundExceedsRemaining)
      else if p.gateway !in gateways then Some(UnknownGateway)
      else if !gateways[p.gateway].enabled then Some(GatewayNotEnabled)
      else None
  }

  /** The same without the order: what the tables and the registered gateways say when it is refused with `e`. */
  ghost predicate JavaRefusedBecause(gateways: map<string, Gateway>, db: Db, j: JavaArgs, e: Error) {
    if j.paymentId !in db.payments then e == PaymentNotFound
    else
      var p := db.payments[j.paymentId];
      var refundable := p.status == Completed || p.status == RefundPending;
      var covered := Cmp(j.amount, Remaining(db, j.paymentId)) <= 0;
      match e
      case RefundNotAllowed => !refundable
      case RefundExceedsRemaining => refundable && !covered
      case UnknownGateway => refundable && covered && p.gateway !in gateways
      case GatewayNotEnabled => refundable && covered && p.gateway in gateways && !gateways[p.gateway].enabled
      case _ => false
  }

  lemma RefusalIffBecause(gateways: map<string, Gateway>, db: Db, j: JavaArgs, e: Error)
    ensures Refusal(gateways, db, j) == Some(e) <==> JavaRefusedBecause(gateways, db, j, e)
  {
  }

  /** The refund row as it is saved first. */
  function SavedRow(j: JavaArgs, rid: Id, now: nat, currency: string, status: RefundStatus): Refund {
    Refund(rid, j.paymentId, Column(j.amount), currency, status, j.reason, j.initiatedBy, None, None, None, now,
           j.correlationId)
  }

  /** The refund row as the gateway's answer leaves it. */
  function FinalRow(j: JavaArgs, rid: Id, now: nat, currency: string, jres: JavaResult): Refund {
    if jres.success then SavedRow(j, rid, now, currency, RefCompleted).(gatewayRefund := jres.ref)
    else SavedRow(j, rid, now, currency, RefFailed).(failureCode := jres.code, failureReason := jres.message)
  }

  /** The payment's status: is the refund, unrounded, all that remained? */
  function FinalStatus(amount: Decimal, remaining: Decimal, jres: JavaResult): PaymentStatus {
    if !jres.success then RefundFailed else if Cmp(amount, remaining) >= 0 then Refunded else Completed
  }

  function TxnRow(j: JavaArgs, rid: Id, tid: Id, currency: string, jres: JavaResult): Txn {
    Txn(tid, j.paymentId, Some(rid), RefundTxn, Column(j.amount), currency, jres.success,
        jres.ref, jres.code, jres.message, j.correlationId)
  }

  /** The tables that an accepted refund leaves. */
  ghost function FinalDb(db: Db, j: JavaArgs, rid: Id, tid: Id, now: nat, jres: JavaResult): Db
    requires j.paymentId in db.payments
  {
    var p := db.payments[j.paymentId];
    var st := FinalStatus(j.amount, Remaining(db, j.paymentId), jres);
    Db(db.payments[j.paymentId := p.(status := st)],
       db.refunds[rid := FinalRow(j, rid, now, p.currency, jres)],
       db.txns[tid := TxnRow(j, rid, tid, p.currency, jres)])
  }

  /**
    What a call may answer on tables `db`, and the tables it leaves; StoreFailure is the exception of an ambiguous
    lookup.
  */
  ghost predicate JavaAnswer(gateways: map<string, Gateway>, db: Db, j: JavaArgs, rid: Id, tid: Id, now: nat,
                             jres: JavaResult, resp: Response, db': Db)
  {
    match resp
    case RefundMade(r) =>
      && IsNew(db, j) && Refusal(gateways, db, j) == None
      && r == FinalRow(j, rid, now, db.payments[j.paymentId].currency, jres)
      && db' == FinalDb(db, j, rid, tid, now, jres)
    case RefundFound(r) =>
      && db' == db && j.correlationId.Some? && Matches(db, j.correlationId.value, r.id) && db.refunds[r.id] == r
      && forall q :: Matches(db, j.correlationId.value, q) ==> q == r.id
    case Rejected(e) =>
      && db' == db
      && if e == StoreFailure then !CorrelationsUnique(db) else IsNew(db, j) && Refusal(gateways, db, j) == Some(e)
    case _ => false
  }

  // ---------- The procedure ----------

  function CompletedRows(rows: seq<Refund>): seq<Refund> {
    if rows == [] then []
    else if rows[|rows| - 1].status == RefCompleted then CompletedRows(rows[..|rows| - 1]) + [rows[|rows| - 1]]
    else CompletedRows(rows[..|rows| - 1])
  }

  function AmountsOf(rows: seq<Refund>): (amounts: seq<Decimal>)
    ensures |amounts| == |rows|
    ensures forall i :: 0 <= i < |rows| ==> amounts[i] == FromUnits(rows[i].amount)
  {
    seq(|rows|, i requires 0 <= i < |rows| => FromUnits(rows[i].amount))
  }

  function Reduce(amounts: seq<Decimal>): Decimal {
    if amounts == [] then ZERO else Add(Reduce(amounts[..|amounts| - 1]), amounts[|amounts| - 1])
  }

  /** getTotalRefunded: filter, map, reduce. */
  function TotalRefunded(rows: seq<Refund>): Decimal {
    Reduce(AmountsOf(CompletedRows(rows)))
  }

  /** The stream expression and Go's accumulating loop compute the same total. */
  lemma {:induction false} StreamIsLoop(rows: seq<Refund>)
    ensures Scaled(TotalRefunded(rows)) && Units(TotalRefunded(rows)) == ListTotal(rows)
  {
    if rows == [] {
    } else {
      var init, last := rows[..|rows| - 1], rows[|rows| - 1];
      StreamIsLoop(init);
      if last.status == RefCompleted {
        var amounts := AmountsOf(CompletedRows(rows));
        assert CompletedRows(rows)[..|CompletedRows(init)|] == CompletedRows(init);
        assert amounts[..|amounts| - 1] == AmountsOf(CompletedRows(init));
        UnitsOfColumn(last.amount);
        ArithmeticIsExact(TotalRefunded(init), FromUnits(last.amount));
      }
    }
  }

  class RefundService {
    const gateways: map<string, Gateway>
    var db: Db

    constructor (gateways: map<string, Gateway>, db: Db)
      ensures this.gateways == gateways && this.db == db
    {
      this.gateways, this.db := gateways, db;
    }

    /** The checks that Java makes before it writes. */
    method Check(j: JavaArgs) returns (r: Result<(Payment, Decimal), Error>)
      requires Keyed(db)
      ensures r.Ok? ==>
                && j.paymentId in db.payments && r.value.0 == db.payments[j.paymentId]
                && Scaled(r.value.1) && Units(r.value.1) == Total(db.refunds, j.paymentId)
                && Refusal(gateways, db, j) in {None, Some(UnknownGateway), Some(GatewayNotEnabled)}
      ensures r.Fail? ==> r.error != StoreFailure && Refusal(gateways, db, j) == Some(r.error)
    {
      if j.paymentId !in db.payments {
        return Fail(PaymentNotFound);
      }
      var payment := db.payments[j.paymentId];
      if payment.status != Completed && payment.status != RefundPending {
        return Fail(RefundNotAllowed);
      }
      var rows := Select(db.refunds, j.paymentId);
      RowsTotal(db.refunds, j.paymentId, rows);
      StreamIsLoop(rows);
      var totalRefunded := TotalRefunded(rows);
      UnitsOfColumn(payment.amount);
      ArithmeticIsExact(FromUnits(payment.amount), totalRefunded);
      var maxRefundable := Sub(FromUnits(payment.amount), totalRefunded);
      CompareByUnits(j.amount, maxRefundable);
      if Cmp(j.amount, maxRefundable) > 0 {
        return Fail(RefundExceedsRemaining);
      }
      r := Ok((payment, totalRefunded));
    }

    /** Optional<Refund> findByCorrelationId: more than one match is an exception. */
    method FindByCorrelationId(corr: string) returns (r: Result<Option<Refund>, Error>)
      requires Keyed(db)
      ensures r.Fail? ==> r.error == StoreFailure && !CorrelationsUnique(db)
      ensures r.Ok? && r.value.None? ==> forall q :: !Matches(db, corr, q)
      ensures r.Ok? && r.value.Some? ==>
                && Matches(db, corr, r.value.value.id) && db.refunds[r.value.value.id] == r.value.value
                && forall q :: Matches(db, corr, q) ==> q == r.value.value.id
    {
      if q, p :| q in db.refunds && p in db.refunds && q != p && Matches(db, corr, q) && Matches(db, corr, p) {
        return Fail(StoreFailure);
      }
      if q :| q in db.refunds && Matches(db, corr, q) {
        return Ok(Some(db.refunds[q]));
      }
      r := Ok(None);
    }

    /** The refund and the payment as the gateway's answer leaves them. */
    method Settle(refund: Refund, payment: Payment, j: JavaArgs, totalRefunded: Decimal, jres: JavaResult)
      returns (r: Refund, p: Payment)
      requires Scaled(totalRefunded)
      requires refund == SavedRow(j, refund.id, refund.createdAt, refund.currency, RefProcessing)
      ensures r == FinalRow(j, refund.id, refund.createdAt, refund.currency, jres)
      ensures var remaining := FromUnits(payment.amount - Units(totalRefunded));
        p == payment.(status := FinalStatus(j.amount, remaining, jres))
    {
      r, p := refund, payment;
      if jres.success {
        r := r.(status := RefCompleted);
        r := r.(gatewayRefund := jres.ref);
        var newTotalRefunded := Add(totalRefunded, j.amount);
        TotalReaches(totalRefunded, j.amount, p.amount);
        if Cmp(newTotalRefunded, FromUnits(p.amount)) >= 0 {
          p := p.(status := Refunded);
        } else {
          p := p.(status := Completed);
        }
      } else {
        r := r.(status := RefFailed);
        r := r.(failureCode := jres.code);
        r := r.(failureReason := jres.message);
        p := p.(status := RefundFailed);
      }
    }

    /** All the saves of an accepted refund, and the gateway call between them. */
    method Write(j: JavaArgs, jres: JavaResult, rid: Id, tid: Id, now: nat, read: Payment, totalRefunded: Decimal)
      returns (r: Result<Refund, Error>)
      requires Scaled(totalRefunded) && read.id == j.paymentId
      requires j.paymentId in db.payments && db.payments[j.paymentId] == read
      requires Units(totalRefunded) == Total(db.refunds, j.paymentId)
      modifies this
      ensures r.Ok? ==>
                && read.gateway in gateways && gateways[read.gateway].enabled
                && r.value == FinalRow(j, rid, now, read.currency, jres)
                && db == FinalDb(old(db), j, rid, tid, now, jres)
      ensures r.Fail? ==>
                if read.gateway !in gateways then r.error == UnknownGateway
                else !gateways[read.gateway].enabled && r.error == GatewayNotEnabled
    {
      var refund := Refund(rid, j.paymentId, Column(j.amount), read.currency, RefPending, j.reason, j.initiatedBy,
                           None, None, None, now, j.correlationId);
      db := db.(refunds := db.refunds[rid := refund]);
      var payment := read.(status := RefundPending);
      db := db.(payments := db.payments[payment.id := payment]);
      Overwrite(old(db).refunds, rid, refund, refund.(status := RefProcessing));
      refund := refund.(status := RefProcessing);
      db := db.(refunds := db.refunds[rid := refund]);
      if payment.gateway !in gateways {
        return Fail(UnknownGateway);
      }
      if !gateways[payment.gateway].enabled {
        return Fail(GatewayNotEnabled);
      }
      var transaction := Txn(tid, j.paymentId, Some(rid), RefundTxn, Column(j.amount), payment.currency,
                             jres.success, jres.ref, jres.code, jres.message, j.correlationId);
      db := db.(txns := db.txns[tid := transaction]);
      Overwrite(old(db).payments, payment.id, payment,
                payment.(status := FinalStatus(j.amount, Remaining(old(db), j.paymentId), jres)));
      Overwrite(old(db).refunds, rid, refund, FinalRow(j, rid, now, read.currency, jres));
      refund, payment := Settle(refund, payment, j, totalRefunded, jres);
      db := db.(payments := db.payments[payment.id := payment]);
      db := db.(refunds := db.refunds[rid := refund]);
      r := Ok(refund);
    }

    /** The transactional procedure: an exception undoes every save. */
    method ProcessRefund(j: JavaArgs, jres: JavaResult, rid: Id, tid: Id, now: nat) returns (resp: Response)
      requires Keyed(db)
      modifies this
      ensures JavaAnswer(gateways, old(db), j, rid, tid, now, jres, resp, db)
      ensures resp.Rejected? && resp.error != StoreFailure ==>
                JavaRefusedBecause(gateways, old(db), j, resp.error) && db == old(db)
    {
      if j.correlationId.Some? {
        var existing := FindByCorrelationId(j.correlationId.value);
        if existing.Fail? {
          return Rejected(existing.error);
        }
        if existing.value.Some? {
          return RefundFound(existing.value.value);
        }
      }
      var before := db;
      var checked := Check(j);
      if checked.Fail? {
        RefusalIffBecause(gateways, before, j, checked.error);
        return Rejected(checked.error);
      }
      var written := Write(j, jres, rid, tid, now, checked.value.0, checked.value.1);
      if written.Fail? {
        db := before;
        resp := Rejected(written.error);
        RefusalIffBecause(gateways, before, j, written.error);
      } else {
        resp := RefundMade(written.value);
      }
    }
  }

  // ---------- Amounts of more than four places ----------

  /** Java's refund, made: what it adds to the rows of each payment. */
  lemma MadeAdds(gateways: map<string, Gateway>, db: Db, j: JavaArgs, rid: Id, tid: Id, now: nat, jres: JavaResult,
                 r: Refund, db': Db, p: Id)
    requires JavaAnswer(gateways, db, j, rid, tid, now, jres, RefundMade(r), db') && rid !in db.refunds
    ensures Total(db'.refunds, p) ==
              Total(db.refunds, p) + if p == j.paymentId && jres.success then Column(j.amount) else 0
  {
    SumInsert(db.refunds, rid, r, CompletedOf(p));
  }

  lemma NotNegative(d: Decimal)
    requires d.coef >= 0
    ensures Column(d) >= 0
  {
    Exact(d, FromUnits(0), Min(d.exp, -4));
    RoundBrackets(d, 0);
  }

  /** Java takes amounts of any number of places. The columns round them, but never beyond what remained. */
  lemma RoundingKeepsCap(gateways: map<string, Gateway>, db: Db, j: JavaArgs, rid: Id, tid: Id, now: nat,
                         jres: JavaResult, r: Refund, db': Db)
    requires Capped(db) && j.amount.coef >= 0 && rid !in db.refunds
    requires JavaAnswer(gateways, db, j, rid, tid, now, jres, RefundMade(r), db')
    ensures Capped(db')
  {
    forall p | p in db'.payments
      ensures 0 <= Total(db'.refunds, p) <= db'.payments[p].amount
    {
      MadeAdds(gateways, db, j, rid, tid, now, jres, r, db', p);
      NotNegative(j.amount);
      RoundBrackets(j.amount, db.payments[j.paymentId].amount - Total(db.refunds, j.paymentId));
    }
  }

  /** The amount is less than what remains, and is stored as all of it. */
  ghost predicate RoundsUp(db: Db, j: JavaArgs) {
    && j.paymentId in db.payments && Cmp(j.amount, Remaining(db, j.paymentId)) < 0
    && Column(j.amount) == db.payments[j.paymentId].amount - Total(db.refunds, j.paymentId)
  }

  /**
    After a successful refund Java's status REFUNDED says that the stored refunds add up to the payment, exactly unless
    the amount was rounded up to what remained: then all is refunded and the payment is COMPLETED.
  */
  lemma RefundedIffCovered(gateways: map<string, Gateway>, db: Db, j: JavaArgs, rid: Id, tid: Id, now: nat,
                           jres: JavaResult, r: Refund, db': Db)
    requires j.amount.coef >= 0 && rid !in db.refunds && jres.success
    requires JavaAnswer(gateways, db, j, rid, tid, now, jres, RefundMade(r), db')
    ensures j.paymentId in db'.payments
    ensures var p := db'.payments[j.paymentId];
      (p.status == Refunded <==> Total(db'.refunds, j.paymentId) == p.amount) <==> !RoundsUp(db, j)
  {
    MadeAdds(gateways, db, j, rid, tid, now, jres, r, db', j.paymentId);
    RoundBrackets(j.amount, db.payments[j.paymentId].amount - Total(db.refunds, j.paymentId));
  }

  /** It happens: 9.99996 of 10 is stored as 10. An amount of at most four places is stored as it is. */
  lemma RoundsUpBeyondFourPlaces(db: Db, p: Id)
    requires p in db.payments && db.payments[p].amount == 100000 && Total(db.refunds, p) == 0
    ensures RoundsUp(db, JavaArgs(p, Decimal(999996, -5), None, None, None))
    ensures forall j: JavaArgs :: Scaled(j.amount) ==> !RoundsUp(db, j)
  {
    assert Pow10(1) == 10;
    forall j: JavaArgs | Scaled(j.amount) && j.paymentId in db.payments
      ensures !RoundsUp(db, j)
    {
      var remaining := db.payments[j.paymentId].amount - Total(db.refunds, j.paymentId);
      RoundKeeps(j.amount);
      ArithmeticIsExact(j.amount, FromUnits(remaining));
      UnitsOfColumn(remaining);
    }
  }

  // ---------- Go refines Java ----------

  /** Under a trimmed id Java's lookup finds nothing exactly when Go's does. */
  lemma FoundAlike(db: Db, a: RefundArgs, j: JavaArgs)
    requires SameArgs(a, j)
    ensures IsNew(db, j) <==> NotYetRefunded(db, a)
  {
    TrimmedIffFixed(a.correlationId);
    if j.correlationId.Some? {
      if IsNew(db, j) {
        forall r | r in db.refunds
          ensures db.refunds[r].correlationId != Some(a.correlationId)
        {
          assert !Matches(db, a.correlationId, r);
        }
      }
    }
  }

  /** Of an amount of at most four places Java's comparison with what remains is Go's, and the column keeps it. */
  lemma ComparedAlike(db: Db, a: RefundArgs, j: JavaArgs)
    requires SameArgs(a, j) && a.paymentId in db.payments
    ensures var remaining := db.payments[a.paymentId].amount - Total(db.refunds, a.paymentId);
      && (Cmp(j.amount, Remaining(db, j.paymentId)) > 0 <==> a.amount > remaining)
      && (Cmp(j.amount, Remaining(db, j.paymentId)) >= 0 <==> a.amount >= remaining)
    ensures Column(j.amount) == a.amount
  {
    var remaining := db.payments[a.paymentId].amount - Total(db.refunds, a.paymentId);
    ArithmeticIsExact(j.amount, FromUnits(remaining));
    UnitsOfColumn(remaining);
    RoundKeeps(j.amount);
  }

  /** The amount exceeds what remains and the gateway is disabled as well: Go looks at the gateway first. */
  ghost predicate BothReasons(gateways: map<string, Gateway>, db: Db, j: JavaArgs) {
    && j.paymentId in db.payments
    && var p := db.payments[j.paymentId];
    && (p.status == Completed || p.status == RefundPending)
    && Cmp(j.amount, Remaining(db, j.paymentId)) > 0 && p.gateway in gateways && !gateways[p.gateway].enabled
  }

  /** Java's checks refuse exactly what Go's refuse, and for the same reason unless both of two hold. */
  lemma RefusedAlike(gateways: map<string, Gateway>, router: Router, db: Db, a: RefundArgs, j: JavaArgs)
    requires SameArgs(a, j) && Registered(gateways, router, db)
    ensures Refusal(gateways, db, j) == None <==> RefundCheck(router, db, a).Ok?
    ensures Refusal(gateways, db, j).Some? && !BothReasons(gateways, db, j) ==>
              RefundCheck(router, db, a) == Fail(Refusal(gateways, db, j).value)
    ensures BothReasons(gateways, db, j) ==>
              && Refusal(gateways, db, j) == Some(RefundExceedsRemaining)
              && RefundCheck(router, db, a) == Fail(GatewayNotEnabled)
  {
    if a.paymentId in db.payments {
      ComparedAlike(db, a, j);
      var name := db.payments[a.paymentId].gateway;
      assert name in gateways && Lower(name) in router.gateways && router.gateways[Lower(name)] == gateways[name];
    }
  }

  /** The rows that Java saves are the rows that Go writes. */
  lemma RowsAlike(a: RefundArgs, j: JavaArgs, rid: Id, tid: Id, now: nat, currency: string, res: GatewayResult,
                  jres: JavaResult)
    requires SameArgs(a, j) && SameResult(res, jres)
    ensures FinalRow(j, rid, now, currency, jres) == Settled(NewRefund(a, rid, now, currency), res)
    ensures TxnRow(j, rid, tid, currency, jres) == RefundRow(a, rid, tid, currency, res)
  {
    RoundKeeps(j.amount);
    StoredAlike(a.reason);
    StoredAlike(a.initiatedBy);
    StoredAlike(a.correlationId);
    StoredAlike(res.ref);
    StoredAlike(res.code);
    StoredAlike(res.message);
  }

  /** A refund that Go makes leaves the tables that Java leaves. */
  lemma MadeAlike(router: Router, db: Db, a: RefundArgs, j: JavaArgs, rid: Id, tid: Id, now: nat,
                  res: GatewayResult, jres: JavaResult, db': Db, r: Refund)
    requires SameArgs(a, j) && SameResult(res, jres)
    requires AtomicRefund(router, db, a, rid, tid, now, res) == Ok((db', r))
    ensures j.paymentId in db.payments && db' == FinalDb(db, j, rid, tid, now, jres)
    ensures r == FinalRow(j, rid, now, db.payments[j.paymentId].currency, jres)
  {
    ComparedAlike(db, a, j);
    RowsAlike(a, j, rid, tid, now, db.payments[a.paymentId].currency, res, jres);
  }

  /** The same answer, also the same reason for a refusal; but of two reasons Go names the gateway, Java the amount. */
  predicate SameAnswer(goResp: Response, javaResp: Response) {
    goResp == javaResp || (goResp == Rejected(GatewayNotEnabled) && javaResp == Rejected(RefundExceedsRemaining))
  }

  /**
    A refund request as both procedures see it, with what its surroundings give it: ids, time and the gateway's answer.
  */
  datatype Attempt = Attempt(a: RefundArgs, j: JavaArgs, rid: Id, tid: Id, now: nat, res: GatewayResult,
                             jres: JavaResult)

  /** Both procedures get the same request and the same gateway answer. */
  predicate SameAttempt(t: Attempt) {
    SameArgs(t.a, t.j) && SameResult(t.res, t.jres)
  }

  ghost predicate GoStep(router: Router, db: Db, t: Attempt, resp: Response, db': Db) {
    RefundAnswer(router, db, t.a, t.rid, t.tid, t.now, t.res, resp, db')
  }

  ghost predicate JavaStep(gateways: map<string, Gateway>, db: Db, t: Attempt, resp: Response, db': Db) {
    JavaAnswer(gateways, db, t.j, t.rid, t.tid, t.now, t.jres, resp, db')
  }

  lemma FoundAgrees(router: Router, gateways: map<string, Gateway>, db: Db, t: Attempt,
                    goResp: Response, goDb: Db, javaResp: Response, javaDb: Db)
    requires SameAttempt(t) && CorrelationsUnique(db) && !NotYetRefunded(db, t.a)
    requires GoStep(router, db, t, goResp, goDb) && JavaStep(gateways, db, t, javaResp, javaDb)
    ensures goDb == javaDb && SameAnswer(goResp, javaResp)
  {
    FoundAlike(db, t.a, t.j);
    TrimmedIffFixed(t.a.correlationId);
    assert goResp.RefundFound? && javaResp.RefundFound?;
    assert Matches(db, t.a.correlationId, goResp.foundRefund.id);
  }

  lemma NewAgrees(router: Router, gateways: map<string, Gateway>, db: Db, t: Attempt,
                  goResp: Response, goDb: Db, javaResp: Response, javaDb: Db)
    requires SameAttempt(t) && CorrelationsUnique(db) && Registered(gateways, router, db) && NotYetRefunded(db, t.a)
    requires GoStep(router, db, t, goResp, goDb) && JavaStep(gateways, db, t, javaResp, javaDb)
    ensures goDb == javaDb && SameAnswer(goResp, javaResp)
    ensures goResp == javaResp || BothReasons(gateways, db, t.j)
  {
    FoundAlike(db, t.a, t.j);
    RefusedAlike(gateways, router, db, t.a, t.j);
    TrimmedIffFixed(t.a.correlationId);
    if goResp.RefundMade? {
      MadeAlike(router, db, t.a, t.j, t.rid, t.tid, t.now, t.res, t.jres, goDb, goResp.refund);
    }
  }

  /**
    On the same tables both accept or both refuse, and leave the same tables; their answers differ only where the amount
    is too much and the gateway disabled.
  */
  lemma StepAgrees(router: Router, gateways: map<string, Gateway>, db: Db, t: Attempt,
                   goResp: Response, goDb: Db, javaResp: Response, javaDb: Db)
    requires SameAttempt(t) && CorrelationsUnique(db) && Registered(gateways, router, db)
    requires GoStep(router, db, t, goResp, goDb) && JavaStep(gateways, db, t, javaResp, javaDb)
    ensures goDb == javaDb && SameAnswer(goResp, javaResp)
    ensures goResp == javaResp || BothReasons(gateways, db, t.j)
  {
    if NotYetRefunded(db, t.a) {
      NewAgrees(router, gateways, db, t, goResp, goDb, javaResp, javaDb);
    } else {
      FoundAgrees(router, gateways, db, t, goResp, goDb, javaResp, javaDb);
    }
  }

  /** A refund made only after its correlation id was not found keeps correlation ids unique, if the id is trimmed. */
  lemma StepKeepsUnique(router: Router, db: Db, t: Attempt, resp: Response, db': Db)
    requires CorrelationsUnique(db) && Trimmed(t.a.correlationId) && GoStep(router, db, t, resp, db')
    ensures CorrelationsUnique(db')
  {
    if resp.RefundMade? {
      RefundKeepsUnique(router, db, t.a, t.rid, t.tid, t.now, t.res, db', resp.refund);
    }
  }

  lemma StepKeepsRegistered(gateways: map<string, Gateway>, router: Router, db: Db, t: Attempt, resp: Response, db': Db)
    requires Registered(gateways, router, db) && GoStep(router, db, t, resp, db')
    ensures Registered(gateways, router, db')
  {
    if resp.RefundMade? {
      assert forall p :: p in db'.payments ==> p in db.payments && db'.payments[p].gateway == db.payments[p].gateway;
    }
  }

  ghost predicate Comparable(gateways: map<string, Gateway>, router: Router, db: Db) {
    CorrelationsUnique(db) && Registered(gateways, router, db)
  }

  lemma AttemptAgrees(gateways: map<string, Gateway>, router: Router, db: Db, t: Attempt,
                      goResp: Response, goDb: Db, javaResp: Response, javaDb: Db)
    requires Comparable(gateways, router, db) && SameAttempt(t)
    requires GoStep(router, db, t, goResp, goDb) && JavaStep(gateways, db, t, javaResp, javaDb)
    ensures goDb == javaDb && SameAnswer(goResp, javaResp) && Comparable(gateways, router, goDb)
    ensures goResp == javaResp || BothReasons(gateways, db, t.j)
  {
    StepAgrees(router, gateways, db, t, goResp, goDb, javaResp, javaDb);
    StepKeepsUnique(router, db, t, goResp, goDb);
    StepKeepsRegistered(gateways, router, db, t, goResp, goDb);
  }

  // ---------- The two procedures side by side ----------

  function JavaOf(res: GatewayResult): JavaResult {
    JavaResult(res.success, TextOf(res.ref), TextOf(res.code), TextOf(res.message))
  }

  predicate TrimmedResult(res: GatewayResult) {
    Trimmed(res.ref) && Trimmed(res.code) && Trimmed(res.message)
  }

  /** Both services stand on the same tables, and no store call of Go's fails. */
  ghost predicate InStep(go: Services.RefundService, java: RefundService)
    reads go.store, go.runtime, java
  {
    && go.Ready() && go.store.committed == java.db && Comparable(java.gateways, go.router, java.db)
    && (forall n :: !go.store.faults(n))
    && (forall n :: TrimmedResult(go.runtime.outcomes(n)))
  }

  /** A refund request as the handlers pass it on. */
  datatype Input = Input(paymentId: Id, amount: Decimal, reason: string, initiatedBy: string, correlationId: string)

  predicate GoodInput(i: Input) {
    Scaled(i.amount) && Trimmed(i.reason) && Trimmed(i.initiatedBy) && Trimmed(i.correlationId)
  }

  function ForGo(i: Input): RefundArgs
    requires Scaled(i.amount)
  {
    RefundArgs(i.paymentId, Units(i.amount), i.reason, i.initiatedBy, i.correlationId)
  }

  function ForJava(i: Input): JavaArgs {
    JavaArgs(i.paymentId, i.amount, TextOf(i.reason), TextOf(i.initiatedBy), TextOf(i.correlationId))
  }

  function AttemptOf(i: Input, rid: Id, now: nat, res: GatewayResult): Attempt
    requires Scaled(i.amount)
  {
    Attempt(ForGo(i), ForJava(i), rid, rid + 1, now, res, JavaOf(res))
  }

  /** An answer other than a store failure is a step of Go's. */
  lemma OutcomeIsStep(router: Router, was: Moment, i: Input, res: GatewayResult, resp: Response, db': Db,
                      after: seq<Sent>)
    requires Scaled(i.amount) && RefundOutcome(router, was, ForGo(i), res, resp, db', after)
    requires resp != Rejected(StoreFailure)
    ensures GoStep(router, was.db, AttemptOf(i, was.nextId, was.clock, res), resp, db')
  {
  }

  method AskGo(go: Services.RefundService, i: Input) returns (resp: Response)
    requires go.Ready() && Scaled(i.amount) && forall n :: !go.store.faults(n)
    modifies go.store, go.runtime
    ensures go.Ready()
    ensures var t := AttemptOf(i, old(go.runtime.nextId), old(go.runtime.clock),
                               go.runtime.outcomes(|old(go.runtime.sent)|));
      GoStep(go.router, old(go.store.committed), t, resp, go.store.committed)
  {
    ghost var was := Now(go.store, go.runtime);
    resp := go.ProcessRefund(i.paymentId, i.amount, i.reason, i.initiatedBy, i.correlationId);
    OutcomeIsStep(go.router, was, i, go.runtime.outcomes(|was.sent|), resp, go.store.committed, go.runtime.sent);
  }

  /** One request, put to both; Java is given the ids, the time and the gateway's answer that Go gets. */
  method RunOne(go: Services.RefundService, java: RefundService, i: Input)
    returns (goResp: Response, javaResp: Response)
    requires InStep(go, java) && GoodInput(i)
    modifies go.store, go.runtime, java
    ensures InStep(go, java) && SameAnswer(goResp, javaResp)
    ensures goResp == javaResp || BothReasons(java.gateways, old(java.db), ForJava(i))
  {
    var rid, now, res := go.runtime.nextId, go.runtime.clock, go.runtime.outcomes(|go.runtime.sent|);
    ghost var before, t := java.db, AttemptOf(i, rid, now, res);
    goResp := AskGo(go, i);
    javaResp := java.ProcessRefund(ForJava(i), JavaOf(res), rid, rid + 1, now);
    assert JavaStep(java.gateways, before, t, javaResp, java.db);
    AttemptAgrees(java.gateways, go.router, before, t, goResp, go.store.committed, javaResp, java.db);
  }

  /**
    For every serial sequence of refund requests with trimmed texts and equal gateway answers, the Go and the Java
    procedure, started on the same tables, accept the same requests and end on the same tables: the same refunds,
    payment statuses and audit rows.
  */
  method RunAll(go: Services.RefundService, java: RefundService, inputs: seq<Input>)
    returns (goResps: seq<Response>, javaResps: seq<Response>)
    requires InStep(go, java) && forall i :: 0 <= i < |inputs| ==> GoodInput(inputs[i])
    modifies go.store, go.runtime, java
    ensures InStep(go, java) && |goResps| == |javaResps| == |inputs|
    ensures forall i :: 0 <= i < |inputs| ==> SameAnswer(goResps[i], javaResps[i])
  {
    goResps, javaResps := [], [];
    for n := 0 to |inputs|
      invariant InStep(go, java) && |goResps| == |javaResps| == n
      invariant forall i :: 0 <= i < n ==> SameAnswer(goResps[i], javaResps[i])
    {
      var x, y := RunOne(go, java, inputs[n]);
      goResps, javaResps := goResps + [x], javaResps + [y];
    }
  }

  // ---------- Over histories ----------

  /** `dbs[i]` are the tables before attempt `i`, `resps[i]` the answer that Go's contract allows. */
  ghost predicate GoHistory(router: Router, attempts: seq<Attempt>, dbs: seq<Db>, resps: seq<Response>) {
    && |dbs| == |attempts| + 1 && |resps| == |attempts|
    && forall i :: 0 <= i < |attempts| ==> GoStep(router, dbs[i], attempts[i], resps[i], dbs[i + 1])
  }

  /** The same for Java's contract. */
  ghost predicate JavaHistory(gateways: map<string, Gateway>, attempts: seq<Attempt>, dbs: seq<Db>,
                              resps: seq<Response>) {
    && |dbs| == |attempts| + 1 && |resps| == |attempts|
    && forall i :: 0 <= i < |attempts| ==> JavaStep(gateways, dbs[i], attempts[i], resps[i], dbs[i + 1])
  }

  lemma {:induction false} HistoriesAgree(gateways: map<string, Gateway>, router: Router, attempts: seq<Attempt>,
                                          goDbs: seq<Db>, goResps: seq<Response>, javaDbs: seq<Db>,
                                          javaResps: seq<Response>, n: nat)
    requires n <= |attempts| && forall i :: 0 <= i < |attempts| ==> SameAttempt(attempts[i])
    requires GoHistory(router, attempts, goDbs, goResps) && JavaHistory(gateways, attempts, javaDbs, javaResps)
    requires goDbs[0] == javaDbs[0] && Comparable(gateways, router, goDbs[0])
    ensures goDbs[n] == javaDbs[n] && Comparable(gateways, router, goDbs[n])
    ensures forall i :: 0 <= i < n ==>
              && SameAnswer(goResps[i], javaResps[i])
              && (goResps[i] == javaResps[i] || BothReasons(gateways, goDbs[i], attempts[i].j))
    decreases n
  {
    if n == 0 {
    } else {
      var m := n - 1;
      HistoriesAgree(gateways, router, attempts, goDbs, goResps, javaDbs, javaResps, m);
      AttemptAgrees(gateways, router, goDbs[m], attempts[m], goResps[m], goDbs[n], javaResps[m], javaDbs[n]);
    }
  }

  /** Any two histories of the two procedures' contracts, over the same attempts, go through the same tables. */
  lemma GoRefinesJava(gateways: map<string, Gateway>, router: Router, attempts: seq<Attempt>,
                      goDbs: seq<Db>, goResps: seq<Response>, javaDbs: seq<Db>, javaResps: seq<Response>)
    requires forall i :: 0 <= i < |attempts| ==> SameAttempt(attempts[i])
    requires GoHistory(router, attempts, goDbs, goResps) && JavaHistory(gateways, attempts, javaDbs, javaResps)
    requires goDbs[0] == javaDbs[0] && Comparable(gateways, router, goDbs[0])
    ensures goDbs == javaDbs
    ensures forall i :: 0 <= i < |attempts| ==>
              && SameAnswer(goResps[i], javaResps[i])
              && (goResps[i] == javaResps[i] || BothReasons(gateways, goDbs[i], attempts[i].j))
  {
    forall n: nat | n <= |attempts|
      ensures goDbs[n] == javaDbs[n]
    {
      HistoriesAgree(gateways, router, attempts, goDbs, goResps, javaDbs, javaResps, n);
    }
    HistoriesAgree(gateways, router, attempts, goDbs, goResps, javaDbs, javaResps, |attempts|);
  }

  /**
    Why the ids must be trimmed: after a refund with a correlation id that is not blank, Go's lookup finds it again
    exactly when the id equals its own trim. Java finds it in any case, since it stores the id as it is.
  */
  lemma ReplayFoundIffTrimmed(router: Router, db: Db, a: RefundArgs, rid: Id, tid: Id, now: nat, res: GatewayResult,
                              db': Db, r: Refund, found: Option<Id>)
    requires WellFormed(db) && Trim(a.correlationId) != ""
    requires AtomicRefund(router, db, a, rid, tid, now, res) == Ok((db', r))
    requires CorrelationLookup(db', a.correlationId, found)
    ensures found.Some? <==> Trimmed(a.correlationId)
  {
    TrimmedIffFixed(a.correlationId);
    assert r.correlationId == NullString(a.correlationId);
    assert rid in db'.refunds && db'.refunds[rid] == r;
    if found.Some? {
      var row := db'.refunds[found.value];
      assert row.correlationId == Some(a.correlationId);
      if found.value != rid {
        assert row == db.refunds[found.value];
        assert GoodRefund(row, found.value);
      }
    }
  }
}
