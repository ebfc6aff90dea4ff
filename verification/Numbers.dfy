/** Exact arithmetic for the decimal values of the program, with every rounding rule it uses written out. */
module Numbers {

  function Min(a: real, b: real): real {
    if b < a then b else a
  }

  function Max(a: real, b: real): real {
    if b > a then b else a
  }

  function Abs(a: real): real {
    if a < 0.0 then -a else a
  }

  function Sum(s: seq<real>): real {
    if s == [] then 0.0 else s[0] + Sum(s[1..])
  }

  lemma {:induction false} SumAppend(s: seq<real>, x: real)
    ensures Sum(s + [x]) == Sum(s) + x
  {
    if s == [] {
      assert s + [x] == [x];
    } else {
      assert (s + [x])[1..] == s[1..] + [x];
      SumAppend(s[1..], x);
    }
  }

  /** Whole cents, cut toward zero: the engine's rounding of stakes. */
  function CutToCents(x: real): real {
    if x >= 0.0 then (x * 100.0).Floor as real / 100.0 else -((-x * 100.0).Floor as real / 100.0)
  }

  lemma CutToCentsBounds(x: real)
    ensures x >= 0.0 ==> 0.0 <= CutToCents(x) <= x < CutToCents(x) + 0.01
    ensures x < 0.0 ==> x <= CutToCents(x) <= 0.0
  {
  }

  /** The nearest whole number, an exact half going away from zero: the ledger's rounding of money to cents. */
  function RoundHalfAway(x: real): int {
    if x >= 0.0 then (x + 0.5).Floor else -((-x + 0.5).Floor)
  }

  /** The nearest whole number, an exact half going to the even neighbour. */
  function RoundHalfEven(x: real): int {
    var below := x.Floor;
    var rest := x - below as real;
    if rest < 0.5 || (rest == 0.5 && below % 2 == 0) then below else below + 1
  }

  lemma RoundHalfEvenNearest(x: real)
    ensures -0.5 <= RoundHalfEven(x) as real - x <= 0.5
  {
  }

  lemma RoundHalfEvenBetween(lo: int, x: real, hi: int)
    requires lo as real <= x <= hi as real
    ensures lo <= RoundHalfEven(x) <= hi
  {
  }

  /** A decimal kept to the grid of 1 / scale. */
  function Quantize(x: real, scale: real): real
    requires scale > 0.0
  {
    RoundHalfEven(x * scale) as real / scale
  }

  ghost predicate OnGrid(x: real, scale: real) {
    exists k: int :: GridPoint(x, scale, k)
  }

  ghost predicate GridPoint(x: real, scale: real, k: int) {
    x * scale == k as real
  }

  function Digit(n: nat): char
    requires n < 10
  {
    "0123456789"[n]
  }

  /** A whole number in decimal digits. */
  function Digits(n: nat): string {
    if n < 10 then [Digit(n)] else Digits(n / 10) + [Digit(n % 10)]
  }

  /** A number written with three decimals. */
  function Thousandths(x: real): string {
    var k := RoundHalfEven(x * 1000.0);
    var n: nat := if k < 0 then -k else k;
    (if x < 0.0 then "-" else "") + Digits(n / 1000) + "." + [Digit(n / 100 % 10), Digit(n / 10 % 10), Digit(n % 10)]
  }

  const CENTER_SCALE: real := 1000000000.0
  const PROBABILITY_SCALE: real := 1000000000000.0

  lemma QuantizedCenterNear(x: real)
    ensures Abs(Quantize(x, CENTER_SCALE) - x) <= 0.0000000005
    ensures OnGrid(Quantize(x, CENTER_SCALE), CENTER_SCALE)
  {
    RoundHalfEvenNearest(x * CENTER_SCALE);
    assert GridPoint(Quantize(x, CENTER_SCALE), CENTER_SCALE, RoundHalfEven(x * CENTER_SCALE));
  }

  /** Rounding to the grid never leaves an interval whose two ends are on the grid. */
  lemma QuantizedCenterBetween(lo: real, x: real, hi: real)
    requires lo <= x <= hi
    requires OnGrid(lo, CENTER_SCALE) && OnGrid(hi, CENTER_SCALE)
    ensures lo <= Quantize(x, CENTER_SCALE) <= hi
  {
    var a: int :| GridPoint(lo, CENTER_SCALE, a);
    var b: int :| GridPoint(hi, CENTER_SCALE, b);
    RoundHalfEvenBetween(a, x * CENTER_SCALE, b);
  }

  lemma MulMono(a: real, b: real, k: real)
    requires a <= b && k >= 0.0
    ensures a * k <= b * k
  {
  }

  lemma MulPositive(a: real, b: real)
    requires a > 0.0 && b > 0.0
    ensures a * b > 0.0
  {
  }

  lemma Distribute(a: real, b: real, k: real)
    ensures (a + b) * k == a * k + b * k
    ensures (a - b) * k == a * k - b * k
  {
  }

  /** A quotient is the one number that gives the dividend back. */
  lemma QuotientIs(a: real, c: real, q: real)
    requires c != 0.0 && q * c == a
    ensures a / c == q
  {
    var d := a / c;
    assert d * c == a;
    Distribute(d, q, c);
    assert (d - q) * c == 0.0;
    if d - q > 0.0 {
      if c > 0.0 { MulPositive(d - q, c); } else { MulPositive(d - q, -c); }
    } else if d - q < 0.0 {
      if c > 0.0 { MulPositive(q - d, c); } else { MulPositive(q - d, -c); }
    }
  }

  /** A product, named so that a proof can keep it out of sight. */
  function Prod(a: real, b: real): real {
    a * b
  }

  /** A quotient, named likewise. */
  function Ratio(a: real, b: real): real
    requires b != 0.0
  {
    a / b
  }

  lemma ProdSplits(k: real, u: real, v: real)
    ensures Prod(k, u + v) == Prod(k, u) + Prod(k, v)
    ensures Prod(k, u - v) == Prod(k, u) - Prod(k, v)
    ensures Prod(k, 0.0) == 0.0
  {
  }

  lemma ProdMono(a: real, b: real, u: real)
    requires a <= b && u >= 0.0
    ensures Prod(a, u) <= Prod(b, u) && Prod(u, a) <= Prod(u, b)
  {
    MulMono(a, b, u);
  }

  lemma RatioBetween(lo: real, sum: real, hi: real, total: real)
    requires total > 0.0 && Prod(lo, total) <= sum <= Prod(hi, total)
    ensures lo <= Ratio(sum, total) <= hi
  {
    DivLess(sum, lo, total);
    DivLess(sum, hi, total);
  }

  /** n copies of x added up: the product n * x, kept out of nonlinear arithmetic. */
  function Times(n: nat, x: real): real {
    if n == 0 then 0.0 else x + Times(n - 1, x)
  }

  lemma {:induction false} TimesIsProduct(n: nat, x: real)
    ensures Times(n, x) == n as real * x
  {
    if n > 0 {
      TimesIsProduct(n - 1, x);
      assert n as real == (n - 1) as real + 1.0;
      Distribute((n - 1) as real, 1.0, x);
    }
  }

  lemma {:induction false} TimesAdds(n: nat, x: real, y: real)
    ensures Times(n, x + y) == Times(n, x) + Times(n, y)
    ensures Times(n, 0.0) == 0.0 && Times(n, 1.0) == n as real
  {
    if n > 0 { TimesAdds(n - 1, x, y); }
  }

  lemma {:induction false} TimesMono(n: nat, x: real, y: real)
    requires x <= y
    ensures Times(n, x) <= Times(n, y)
  {
    if n > 0 { TimesMono(n - 1, x, y); }
  }

  lemma DivLess(a: real, b: real, c: real)
    requires c > 0.0
    ensures a / c <= b <==> a <= b * c
    ensures a / c < b <==> a < b * c
    ensures b <= a / c <==> b * c <= a
    ensures b < a / c <==> b * c < a
  {
    var q := a / c;
    assert q * c == a;
    if q <= b { MulMono(q, b, c); } else { MulPositive(q - b, c); }
    if b <= q { MulMono(b, q, c); } else { MulPositive(b - q, c); }
  }
}
