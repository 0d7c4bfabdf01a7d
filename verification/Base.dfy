/** Result types shared by every module, and sums over finite tables. */
module Base {

  datatype Option<+T> = None | Some(value: T)

  datatype Result<+T, +E> = Ok(value: T) | Fail(error: E)

  /** The error values the two services hand back to their callers. */
  datatype Error =
    | PaymentNotFound
    | RefundNotAllowed
    | RefundExceedsRemaining
    | UnknownGateway
    | GatewayNotEnabled
    | UniqueViolation
    | StoreFailure
}

/** Order-independent sums over the rows of a table. */
module Sums {

  ghost function Pick<K, T>(m: map<K, T>): (k: K)
    requires m != map[]
    ensures k in m
  {
    var k :| k in m;
    k
  }

  /** The sum of `f` over all rows of `m`. */
  ghost function Sum<K, T>(m: map<K, T>, f: T -> int): int
    decreases |m|
  {
    if m == map[] then 0
    else
      var k := Pick(m);
      f(m[k]) + Sum(m - {k}, f)
  }

  /** Any row may be split off first: the sum does not depend on the order of the rows. */
  lemma {:induction false} SumRemove<K, T>(m: map<K, T>, k: K, f: T -> int)
    requires k in m
    ensures Sum(m, f) == f(m[k]) + Sum(m - {k}, f)
    decreases |m|
  {
    var k0 := Pick(m);
    if k == k0 {
    } else {
      SumRemove(m - {k0}, k, f);
      SumRemove(m - {k}, k0, f);
      assert m - {k0} - {k} == m - {k} - {k0};
    }
  }

  lemma SumInsert<K, T>(m: map<K, T>, k: K, v: T, f: T -> int)
    requires k !in m
    ensures Sum(m[k := v], f) == Sum(m, f) + f(v)
  {
    SumRemove(m[k := v], k, f);
    assert m[k := v] - {k} == m;
  }

  lemma SumUpdate<K, T>(m: map<K, T>, k: K, v: T, f: T -> int)
    requires k in m
    ensures Sum(m[k := v], f) == Sum(m, f) - f(m[k]) + f(v)
  {
    SumRemove(m[k := v], k, f);
    SumRemove(m, k, f);
    assert m[k := v] - {k} == m - {k};
  }

  /** A pointwise bound between scaled values is a bound between the scaled sums. */
  lemma {:induction false} SumBound<K, T>(m: map<K, T>, c: int, f: T -> int, a: int, g: T -> int, b: int, h: T -> int)
    requires forall k :: k in m ==> c * f(m[k]) <= a * g(m[k]) + b * h(m[k])
    ensures c * Sum(m, f) <= a * Sum(m, g) + b * Sum(m, h)
    decreases |m|
  {
    if m == map[] {
    } else {
      var k := Pick(m);
      SumBound(m - {k}, c, f, a, g, b, h);
      assert c * f(m[k]) <= a * g(m[k]) + b * h(m[k]);
      Distribute(c, f(m[k]), Sum(m - {k}, f));
      Distribute(a, g(m[k]), Sum(m - {k}, g));
      Distribute(b, h(m[k]), Sum(m - {k}, h));
    }
  }

  lemma Distribute(a: int, x: int, y: int)
    ensures a * (x + y) == a * x + a * y
  {
  }

  lemma {:induction false} SumNonNegative<K, T>(m: map<K, T>, f: T -> int)
    requires forall k :: k in m ==> 0 <= f(m[k])
    ensures 0 <= Sum(m, f)
    decreases |m|
  {
    if m == map[] {
    } else {
      SumNonNegative(m - {Pick(m)}, f);
    }
  }

  lemma {:induction false} SumZero<K, T>(m: map<K, T>, f: T -> int)
    requires forall k :: k in m ==> f(m[k]) == 0
    ensures Sum(m, f) == 0
    decreases |m|
  {
    if m == map[] {
    } else {
      SumZero(m - {Pick(m)}, f);
    }
  }

  /** A sum with one value other than zero is that value. */
  lemma SumSingle<K, T>(m: map<K, T>, k: K, f: T -> int)
    requires k in m && forall j :: j in m && j != k ==> f(m[j]) == 0
    ensures Sum(m, f) == f(m[k])
  {
    SumRemove(m, k, f);
    SumZero(m - {k}, f);
  }
}
