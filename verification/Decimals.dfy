/** The 18-digit fixed-point numbers of cosmos-sdk v0.45 (types/decimal.go): a Dec is an integer
    counting units of 10^-18. Products and quotients are rounded half to even. */
module Decimals {
  import opened Common

  const PREC: int := 1_000_000_000_000_000_000

  /** Integer division that truncates toward zero. */
  function Trunc(a: int, b: int): int
    requires b != 0
  {
    if (a < 0) == (b < 0) then Abs(a) / Abs(b) else -(Abs(a) / Abs(b))
  }

  /** Divides by PREC, rounding the absolute value half to even. */
  function Chop(d: int): int {
    if d < 0 then -ChopNat(-d) else ChopNat(d)
  }

  function ChopNat(d: int): int
    requires 0 <= d
  {
    var quo, rem := d / PREC, d % PREC;
    if 2 * rem < PREC then quo
    else if 2 * rem > PREC then quo + 1
    else if quo % 2 == 0 then quo
    else quo + 1
  }

  function Mul(a: int, b: int): int {
    Chop(a * b)
  }

  function Quo(a: int, b: int): int
    requires b != 0
  {
    Chop(Trunc(a * PREC * PREC, b))
  }

  function ToDec(i: int): int {
    i * PREC
  }

  function RoundInt(d: int): int {
    Chop(d)
  }

  /** r is d / PREC rounded to the nearest integer, and to the even one in a tie. */
  ghost predicate NearestEven(d: int, r: int) {
    && 2 * Abs(r * PREC - d) <= PREC
    && (2 * Abs(r * PREC - d) == PREC ==> r % 2 == 0)
  }

  lemma ChopNearest(d: int)
    ensures NearestEven(d, Chop(d))
  {
    var e := Abs(d);
    var quo, rem := e / PREC, e % PREC;
    assert e == quo * PREC + rem;
    assert NearestEven(e, ChopNat(e));
  }

  /** Rounding to nearest, ties to even, is one function: any other way to compute it agrees. */
  lemma ChopUnique(d: int, r: int)
    ensures NearestEven(d, r) <==> r == Chop(d)
  {
    ChopNearest(d);
  }

  lemma ChopMono(d: int, e: int)
    requires d <= e
    ensures Chop(d) <= Chop(e)
  {
    ChopNearest(d);
    ChopNearest(e);
  }

  lemma ChopExact(k: int)
    ensures Chop(k * PREC) == k
  {
    ChopUnique(k * PREC, k);
  }

  lemma TruncBounds(a: int, b: int)
    requires 0 <= a && 0 < b
    ensures Trunc(a, b) == a / b >= 0
    ensures Trunc(a, b) * b <= a < Trunc(a, b) * b + b
  {
  }

  lemma DivMono(a: int, b: int, c: int)
    requires 0 <= a <= b && 0 < c
    ensures a / c <= b / c
  {
    var p, q := a / c, b / c;
    assert p * c <= a && b < q * c + c;
    if p > q {
      MulMono(q + 1, p, c);
    }
  }

  lemma DivAnti(a: int, b: int, c: int)
    requires 0 <= a && 0 < b <= c
    ensures a / c <= a / b
  {
    var p, q := a / c, a / b;
    assert p * c <= a && a < q * b + b;
    if p > q {
      MulMono(q + 1, p, b);
      MulMono(b, c, p);
    }
  }

  /** 10^36, the square of PREC. */
  const PREC2: int := 1_000_000_000_000_000_000_000_000_000_000_000_000

  lemma QuoScale(x: int, p: int)
    requires 0 <= x && 0 < p
    ensures Quo(x, p) == Chop(x * PREC2 / p)
  {
    assert x * PREC * PREC == x * PREC2;
    TruncBounds(x * PREC2, p);
  }

  lemma TwiceChopped(q: int)
    ensures Abs(PREC2 * Chop(Chop(q)) - q) * 2 <= PREC2 + PREC
  {
    ChopNearest(q);
    ChopNearest(Chop(q));
  }

  /** Quo then RoundInt, the two roundings (on top of a truncation) that turn a limit into a token
      amount, stay within 1/2 + 10^-18/2 + 10^-36 of the exact quotient x / p. */
  lemma QuoRoundError(x: int, p: int)
    requires 0 <= x && 0 < p
    ensures 2 * PREC2 * Abs(RoundInt(Quo(x, p)) * p - x) <= p * (PREC2 + PREC + 2)
  {
    QuoScale(x, p);
    var q := x * PREC2 / p;
    assert q * p <= x * PREC2 < q * p + p;
    TwiceChopped(q);
    ScaledError(PREC2, PREC, Chop(Chop(q)), q, x, p);
  }

  lemma ScaledError(k: int, l: int, r: int, q: int, x: int, p: int)
    requires 0 < p && 0 < k && q * p <= x * k < q * p + p
    requires Abs(k * r - q) * 2 <= k + l
    ensures 2 * k * Abs(r * p - x) <= p * (k + l + 2)
  {
    var e, d := k * r - q, r * p - x;
    TimesPositive(e, k + l, p);
    ScaledDifference(k, r, q, x, p);
    SumBound(k * d, e * p, q * p - x * k, (k + l) * p, p);
    AbsScale(k, d);
    Twice(k, Abs(d));
    AddTwo(k + l, p);
  }

  lemma TimesPositive(e: int, m: int, p: int)
    requires Abs(e) * 2 <= m && 0 < p
    ensures -(m * p) <= 2 * (e * p) <= m * p
  {
    MulMono(2 * e, m, p);
    MulMono(-m, 2 * e, p);
    Twice(e, p);
    Negated(m, p);
  }

  lemma Twice(a: int, b: int)
    ensures (2 * a) * b == 2 * (a * b)
  {
  }

  lemma Negated(a: int, b: int)
    ensures (-a) * b == -(a * b)
  {
  }

  lemma SumBound(sum: int, e: int, d: int, m: int, p: int)
    requires sum == e + d && -p <= d <= 0 && -m <= 2 * e <= m
    ensures 2 * Abs(sum) <= m + 2 * p
  {
  }

  lemma AbsScale(k: int, d: int)
    requires 0 < k
    ensures k * Abs(d) == Abs(k * d)
  {
    if d < 0 {
      MulMono(d, 0, k);
    } else {
      MulMono(0, d, k);
    }
  }

  lemma AddTwo(m: int, p: int)
    ensures p * (m + 2) == m * p + 2 * p
  {
  }

  lemma ScaledDifference(k: int, r: int, q: int, x: int, p: int)
    ensures k * (r * p - x) == (k * r - q) * p + (q * p - x * k)
  {
  }

  lemma QuoRoundMono(x: int, y: int, p: int)
    requires 0 <= x <= y && 0 < p
    ensures 0 <= RoundInt(Quo(x, p)) <= RoundInt(Quo(y, p))
  {
    QuoScale(x, p);
    QuoScale(y, p);
    DivMono(x * PREC2, y * PREC2, p);
    TruncBounds(x * PREC2, p);
    ChopMono(x * PREC2 / p, y * PREC2 / p);
    ChopMono(Quo(x, p), Quo(y, p));
    ChopMono(0, x * PREC2 / p);
    ChopMono(0, Quo(x, p));
  }

  lemma QuoRoundAnti(x: int, p: int, q: int)
    requires 0 <= x && 0 < p <= q
    ensures RoundInt(Quo(x, q)) <= RoundInt(Quo(x, p))
  {
    QuoScale(x, p);
    QuoScale(x, q);
    DivAnti(x * PREC2, p, q);
    ChopMono(x * PREC2 / q, x * PREC2 / p);
    ChopMono(Quo(x, q), Quo(x, p));
  }
}
