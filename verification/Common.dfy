/** Small shared datatypes and the few arithmetic facts the proofs lean on. */
module Common {

  datatype Option<+T> = None | Some(value: T)

  datatype Result<+T, +E> = Success(value: T) | Failure(error: E)

  function Min(a: int, b: int): int {
    if a <= b then a else b
  }

  function Max(a: int, b: int): int {
    if a <= b then b else a
  }

  /** a / b rounded up. */
  function CeilDiv(a: nat, b: nat): nat
    requires b > 0
  {
    (a + b - 1) / b
  }

  lemma MulLe(p: nat, a: int, b: int)
    requires a <= b
    ensures p * a <= p * b
  {
  }

  lemma MulMin(p: nat, a: int, b: int)
    ensures Min(p * a, p * b) == p * Min(a, b)
  {
    if a <= b {
      MulLe(p, a, b);
    } else {
      MulLe(p, b, a);
    }
  }

  lemma DivBounds(a: int, b: int)
    requires b > 0
    ensures b * (a / b) <= a < b * (a / b) + b
  {
  }

  /** The quotient is the one number whose multiple brackets `a`. */
  lemma DivUnique(a: int, b: int, q: int)
    requires b > 0 && b * q <= a < b * q + b
    ensures a / b == q
  {
    DivBounds(a, b);
    if a / b < q {
      MulLe(b, a / b + 1, q);
    } else if a / b > q {
      MulLe(b, q + 1, a / b);
    }
  }

  lemma DivOfMul(p: nat, k: int)
    requires p > 0
    ensures (p * k) / p == k
  {
    DivUnique(p * k, p, k);
  }

  lemma DivMonotone(p: nat, less: int, more: int)
    requires p > 0 && less <= more
    ensures less / p <= more / p
  {
    DivBounds(more, p);
    DivBounds(less, p);
    if less / p > more / p {
      MulLe(p, more / p + 1, less / p);
    }
  }

  lemma CeilDivBounds(a: nat, b: nat)
    requires b > 0
    ensures a <= b * CeilDiv(a, b) < a + b
  {
    DivBounds(a + b - 1, b);
  }

  function Sum(amounts: seq<nat>): nat {
    if amounts == [] then 0 else amounts[0] + Sum(amounts[1..])
  }

  lemma {:induction false} SumAppend(amounts: seq<nat>, a: nat)
    ensures Sum(amounts + [a]) == Sum(amounts) + a
    decreases |amounts|
  {
    if amounts == [] {
      assert [] + [a] == [a] && [a][1..] == [];
    } else {
      assert (amounts + [a])[1..] == amounts[1..] + [a];
      SumAppend(amounts[1..], a);
    }
  }

  /** Concatenation is associative, which the solver does not try on its own. */
  lemma Regroup<T>(a: seq<T>, b: seq<T>, c: seq<T>)
    ensures (a + b) + c == a + (b + c)
  {
  }
}
