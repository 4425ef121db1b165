/** Integer arithmetic shared by the models.  C's "/" truncates towards zero and
    Dafny's is Euclidean; every division modelled here has a non-negative
    numerator and a positive denominator, where the two agree.  Quotients are
    defined by repeated subtraction, which keeps proofs about state linear. */
module CMath {

  function Abs(x: int): nat {
    if x < 0 then -x else x
  }

  function Min(a: int, b: int): int {
    if a < b then a else b
  }

  function Max(a: int, b: int): int {
    if a < b then b else a
  }

  function Sign(x: int): int {
    if x < 0 then -1 else if x > 0 then 1 else 0
  }

  /** x lies between a and b, whichever of them is larger. */
  predicate Between(a: int, x: int, b: int) {
    a <= x <= b || b <= x <= a
  }

  /** a / b rounded up: how many steps of length b cover the distance a. */
  function CeilDiv(a: nat, b: int): nat
    requires b > 0
  {
    if a <= b then (if a == 0 then 0 else 1) else 1 + CeilDiv(a - b, b)
  }

  /** It is the least n with n * b >= a. */
  lemma {:induction false} CeilDivBounds(a: nat, b: int)
    requires b > 0
    ensures (CeilDiv(a, b) - 1) * b < a <= CeilDiv(a, b) * b
  {
    if a > b {
      CeilDivBounds(a - b, b);
      var n := CeilDiv(a - b, b);
      assert (n + 1) * b == n * b + b && n * b == (n - 1) * b + b;
    }
  }

  /** The quotient a / b. */
  function Quot(a: nat, b: int): nat
    requires b > 0
  {
    if a < b then 0 else 1 + Quot(a - b, b)
  }

  lemma {:induction false} QuotBounds(a: nat, b: int)
    requires b > 0
    ensures Quot(a, b) * b <= a < Quot(a, b) * b + b
  {
    if a >= b {
      QuotBounds(a - b, b);
      assert (Quot(a - b, b) + 1) * b == Quot(a - b, b) * b + b;
    }
  }

  lemma QuotIsDiv(a: nat, b: int)
    requires b > 0
    ensures Quot(a, b) == a / b
  {
    QuotBounds(a, b);
    var q, r := Quot(a, b), a / b;
    assert a == b * r + a % b;
    if q < r {
      MulMono(q + 1, r, b);
    } else if r < q {
      MulMono(r + 1, q, b);
    }
  }

  lemma {:induction false} QuotShrinks(a: nat, b: int)
    requires b > 0
    ensures Quot(a, b) <= a
  {
    if a >= b { QuotShrinks(a - b, b); }
  }

  lemma MulMono(a: int, b: int, c: nat)
    requires a <= b
    ensures a * c <= b * c
  {
    assert (b - a) * c >= 0;
  }

  lemma CeilDivLeast(a: nat, b: int, n: int)
    requires b > 0 && a <= n * b
    ensures CeilDiv(a, b) <= n
  {
    CeilDivBounds(a, b);
    if n < CeilDiv(a, b) {
      MulMono(n, CeilDiv(a, b) - 1, b);
    }
  }

  lemma CeilDivGreatest(a: nat, b: int, n: int)
    requires b > 0 && (n - 1) * b < a
    ensures n <= CeilDiv(a, b)
  {
    CeilDivBounds(a, b);
    if CeilDiv(a, b) < n {
      MulMono(CeilDiv(a, b), n - 1, b);
    }
  }

  lemma Assoc<T>(a: seq<T>, b: seq<T>, c: seq<T>)
    ensures (a + b) + c == a + (b + c)
  {
  }
}
