/** The range of the amount columns, and truncation to the gateway's minor units over the refunds of a payment. */
module MinorUnits {
  import opened Sums
  import opened Money
  import opened Domain
  import opened Ledger
  import opened Protocol
  import opened Runs

  const TWO_63 := 0x8000_0000_0000_0000
  const TWO_64 := 0x1_0000_0000_0000_0000

  /** The low-order 64 bits, as a signed integer. */
  function Wrap64(n: int): (r: int)
    ensures -TWO_63 <= r < TWO_63
  {
    (n + TWO_63) % TWO_64 - TWO_63
  }

  /** The integer part, toward zero. */
  function Truncate(d: Decimal): int {
    if d.exp >= 0 then d.coef * Pow10(d.exp) else Quo(d.coef, Pow10(-d.exp))
  }

  /** amount.multiply(BigDecimal.valueOf(100)).longValue() */
  function ToMinor(d: Decimal): int {
    Wrap64(Truncate(Decimal(d.coef * 100, d.exp)))
  }

  lemma SmallPowers()
    ensures Pow10(0) == 1 && Pow10(1) == 10 && Pow10(2) == 100 && Pow10(3) == 1000 && Pow10(4) == 10000
  {
    assert Pow10(2) == 10 * Pow10(1);
    assert Pow10(3) == 10 * Pow10(2);
    assert Pow10(4) == 10 * Pow10(3);
  }

  lemma NineteenPlaces()
    ensures Pow10(19) == NUMERIC_LIMIT
  {
    SmallPowers();
    PowAdd(4, 4);
    PowAdd(8, 8);
    PowAdd(16, 3);
  }

  /** A NUMERIC(19,4) column takes an amount exactly when its units have at most nineteen digits. */
  lemma FitsNineteenDigits(units: int)
    ensures FitsNumeric(units) <==> |Digits(Abs(units))| <= 19
  {
    NineteenPlaces();
    DigitsWithin(Abs(units), 19);
  }

  lemma TruncateHundred(d: Decimal)
    requires Scaled(d) && d.coef >= 0
    ensures Units(d) >= 0 && Truncate(Decimal(d.coef * 100, d.exp)) == Units(d) / 100
  {
    SmallPowers();
    if d.exp >= 0 {
      PowAdd(d.exp, 4);
      MulAssoc(d.coef, Pow10(d.exp), 10000);
      MulAssoc(d.coef, 100, Pow10(d.exp));
      MulAssoc(d.coef, Pow10(d.exp), 100);
      assert Units(d) == d.coef * Pow10(d.exp) * 10000;
      assert d.coef * 100 * Pow10(d.exp) == d.coef * Pow10(d.exp) * 100;
      NonNegativeProduct(d.coef, Pow10(d.exp));
    } else if d.exp == -1 {
      assert Units(d) == d.coef * 1000;
    } else if d.exp == -2 {
      assert Units(d) == d.coef * 100;
    } else if d.exp == -3 {
      assert Units(d) == d.coef * 10;
    } else {
      assert Units(d) == d.coef * 1;
    }
  }

  lemma NonNegativeProduct(x: int, y: int)
    requires x >= 0 && y >= 0
    ensures x * y >= 0
  {
  }

  /** An amount that a NUMERIC(19,4) column holds is converted without wrapping: whole minor units, rounded down. */
  lemma ConversionIsSafe(d: Decimal)
    requires Scaled(d) && d.coef >= 0 && FitsNumeric(Units(d))
    ensures ToMinor(d) == Units(d) / 100 && 0 <= ToMinor(d) < TWO_63
  {
    TruncateHundred(d);
  }

  function MinorOf(p: Id): Refund -> int {
    (r: Refund) => if r.paymentId == p && r.status == RefCompleted then r.amount / 100 else 0
  }

  function CountOf(p: Id): Refund -> int {
    (r: Refund) => if r.paymentId == p && r.status == RefCompleted then 1 else 0
  }

  /** The truncation errors of k refunds add up to at most 99 units each. */
  lemma MinorBounds(db: Db, p: Id)
    ensures 100 * Sum(db.refunds, MinorOf(p)) <= Total(db.refunds, p)
    ensures Total(db.refunds, p) <= 100 * Sum(db.refunds, MinorOf(p)) + 99 * Sum(db.refunds, CountOf(p))
  {
    SumBound(db.refunds, 100, MinorOf(p), 1, CompletedOf(p), 0, CountOf(p));
    SumBound(db.refunds, 1, CompletedOf(p), 100, MinorOf(p), 99, CountOf(p));
  }

  /** Refunding something takes at least one refund. */
  lemma SomeRefund(db: Db, p: Id)
    requires WellFormed(db) && p in db.payments
    ensures Total(db.refunds, p) <= db.payments[p].amount * Sum(db.refunds, CountOf(p))
  {
    forall r | r in db.refunds
      ensures 1 * CompletedOf(p)(db.refunds[r])
              <= db.payments[p].amount * CountOf(p)(db.refunds[r]) + 0 * CountOf(p)(db.refunds[r])
    {
      assert RefundRefers(db, db.refunds[r]);
    }
    SumBound(db.refunds, 1, CompletedOf(p), db.payments[p].amount, CountOf(p), 0, CountOf(p));
  }

  lemma ColumnConverts(u: int)
    requires 0 <= u && FitsNumeric(u)
    ensures ToMinor(FromUnits(u)) == u / 100 < TWO_63
  {
    UnitsOfColumn(u);
    ConversionIsSafe(FromUnits(u));
  }

  lemma RefundConverts(db: Db, r: Id)
    requires WellFormed(db) && r in db.refunds
    ensures ToMinor(FromUnits(db.refunds[r].amount)) == db.refunds[r].amount / 100 < TWO_63
  {
    assert GoodRefund(db.refunds[r], r) && RefundRefers(db, db.refunds[r]);
    assert GoodPayment(db.payments[db.refunds[r].paymentId], db.refunds[r].paymentId);
    ColumnConverts(db.refunds[r].amount);
  }

  lemma Shortfall(amount: int, refunded: int, k: int, total: int)
    requires 0 < amount && 0 <= refunded && 0 <= k && 100 * refunded <= total <= amount
    requires total <= 100 * refunded + 99 * k
    requires k == 0 ==> total <= 0
    ensures refunded <= amount / 100
    ensures total == amount ==> k >= 1 && amount / 100 - refunded <= k - 1
  {
  }

  /** The minor units of a payment's refunds against those of its charge. */
  ghost predicate MinorSafe(db: Db, p: Id)
    requires p in db.payments
  {
    var charged := ToMinor(FromUnits(db.payments[p].amount));
    var refunded, k := Sum(db.refunds, MinorOf(p)), Sum(db.refunds, CountOf(p));
    && 0 <= refunded <= charged < TWO_63
    && (Total(db.refunds, p) == db.payments[p].amount ==> k >= 1 && charged - refunded <= k - 1)
  }

  lemma MinorFollows(db: Db, p: Id)
    requires WellFormed(db) && Capped(db) && p in db.payments
    ensures MinorSafe(db, p)
  {
    assert GoodPayment(db.payments[p], p);
    ColumnConverts(db.payments[p].amount);
    MinorBounds(db, p);
    SomeRefund(db, p);
    forall r | r in db.refunds
      ensures 0 <= MinorOf(p)(db.refunds[r])
    {
      assert GoodRefund(db.refunds[r], r);
    }
    SumNonNegative(db.refunds, MinorOf(p));
    SumNonNegative(db.refunds, CountOf(p));
    Shortfall(db.payments[p].amount, Sum(db.refunds, MinorOf(p)), Sum(db.refunds, CountOf(p)), Total(db.refunds, p));
  }

  /**
    In every reachable state, the minor units refunded never exceed those charged; a payment refunded in full by k
    refunds falls short by at most k - 1 minor units; and no conversion of a stored amount leaves the 64-bit range.
  */
  lemma MinorUnitsAreSafe(cfg: Config, ls: seq<Label>, s: State, p: Id)
    requires Reaches(cfg, ls, s) && p in s.sh.db.payments
    ensures MinorSafe(s.sh.db, p)
    ensures forall r :: r in s.sh.db.refunds ==>
              ToMinor(FromUnits(s.sh.db.refunds[r].amount)) == s.sh.db.refunds[r].amount / 100 < TWO_63
  {
    RunKeeps(cfg, ls, s);
    ReplayKeeps(cfg, s.sh.log);
    MinorFollows(s.sh.db, p);
    forall r | r in s.sh.db.refunds
      ensures ToMinor(FromUnits(s.sh.db.refunds[r].amount)) == s.sh.db.refunds[r].amount / 100 < TWO_63
    {
      RefundConverts(s.sh.db, r);
    }
  }
}
