/**
 * C# integer division. The `/` and `%` operators on `int` truncate toward
 * zero, so `-1 / 4 == 0` and `-1 % 4 == -1`, where Dafny's Euclidean
 * operators give `-1` and `3`.
 */
module Division {

  function Abs(a: int): (r: nat)
    ensures r == a || r == -a
  {
    if a < 0 then -a else a
  }

  /**
   * C# `a / b`: the quotient rounded toward zero. Its sign is the sign of the
   * exact quotient; with `DivisionIdentity` and the bounds on `TruncRem` this
   * determines it.
   */
  function TruncDiv(a: int, b: int): (q: int)
    requires b != 0
    ensures (a < 0) == (b < 0) ==> q >= 0
    ensures (a < 0) != (b < 0) ==> q <= 0
  {
    QuotientOfNaturals(Abs(a), Abs(b));
    var q := Abs(a) / Abs(b);
    if (a < 0) == (b < 0) then q else -q
  }

  /** Dividing a natural number by a positive one gives a natural number. */
  lemma QuotientOfNaturals(n: nat, d: nat)
    requires d > 0
    ensures n / d >= 0
  {
  }

  /** C# `a % b`: the remainder, carrying the sign of `a`. */
  function TruncRem(a: int, b: int): (r: int)
    requires b != 0
    ensures Abs(r) < Abs(b)
    ensures a >= 0 ==> r >= 0
    ensures a <= 0 ==> r <= 0
  {
    var r := Abs(a) % Abs(b);
    if a < 0 then -r else r
  }

  /** Quotient and remainder put `a` back together, as C# guarantees for `/` and `%`. */
  lemma DivisionIdentity(a: int, b: int)
    requires b != 0
    ensures a == b * TruncDiv(a, b) + TruncRem(a, b)
  {
  }

  /** On a non-negative dividend and a positive divisor both conventions agree. */
  lemma TruncMatchesEuclid(a: int, b: int)
    requires a >= 0 && b > 0
    ensures TruncDiv(a, b) == a / b && TruncRem(a, b) == a % b
  {
  }

  /** A negative dividend of smaller magnitude than a positive divisor truncates to 0, where Euclidean division gives -1. */
  lemma SmallNegativeTruncatesToZero(a: int, b: int)
    requires -b < a < 0
    ensures TruncDiv(a, b) == 0 && a / b == -1
  {
  }
}
