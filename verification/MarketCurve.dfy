/** The empirical settlement curve: win, push and loss chances of a line, and the center a price implies. */
module MarketCurve {
  import opened Wrappers
  import opened Numbers

  datatype Market = Spread | Total

  datatype Side = Home | Away | Over | Under

  datatype CurveError = SideMismatch | ProbabilityNotInside

  /** A residual seen `count` times. */
  datatype Bin = Bin(residual: real, count: nat)

  datatype Curve = Curve(market: Market, histogram: seq<Bin>, sampleSize: nat) {
    ghost predicate Valid() {
      && sampleSize >= 1
      && Count(histogram) == sampleSize
      && (forall bin <- histogram :: bin.count >= 1)
    }
  }

  datatype Settlement = Settlement(win: real, push: real, loss: real) {
    function ConditionalWin(): real {
      Conditional(win, loss)
    }
  }

  /** The chance of a win given that the bet resolves; zero when it always pushes. */
  function Conditional(win: real, loss: real): real {
    if win + loss == 0.0 then 0.0 else win / (win + loss)
  }

  /** A mass as a share of the sample. */
  function Chance(mass: real, sampleSize: nat): real
    requires sampleSize >= 1
  {
    mass / sampleSize as real
  }

  function Count(h: seq<Bin>): nat {
    if h == [] then 0 else h[0].count + Count(h[1..])
  }

  predicate SideFits(market: Market, side: Side) {
    match market
    case Spread => side == Home || side == Away
    case Total => side == Over || side == Under
  }

  function FirstSide(market: Market): Side {
    if market == Spread then Home else Over
  }

  /** Positive when the side wins at this outcome, negative when it loses. */
  function SettlementResult(market: Market, side: Side, outcome: real, point: real): real {
    match market
    case Spread => if side == Home then outcome + point else -outcome + point
    case Total => if side == Over then outcome - point else point - outcome
  }

  // ----- One residual: its unit of mass split between the two whole outcomes around it -----

  datatype Sign = Wins | Pushes | Loses

  function SignOf(result: real): Sign {
    if result > 0.0 then Wins else if result < 0.0 then Loses else Pushes
  }

  /** The part of the mass at `continuous` that falls on outcomes of the given sign. */
  function Share(market: Market, side: Side, point: real, continuous: real, sign: Sign): real {
    var lower := continuous.Floor as real;
    var upperWeight := continuous - lower;
    (if SignOf(SettlementResult(market, side, lower, point)) == sign then 1.0 - upperWeight else 0.0)
    + (if SignOf(SettlementResult(market, side, lower + 1.0, point)) == sign then upperWeight else 0.0)
  }

  function Mass(h: seq<Bin>, market: Market, side: Side, center: real, point: real, sign: Sign): real {
    if h == [] then 0.0
    else Times(h[0].count, Share(market, side, point, center + h[0].residual, sign))
         + Mass(h[1..], market, side, center, point, sign)
  }

  /** What is left of the mass from bin i on. */
  lemma MassFrom(h: seq<Bin>, i: nat, market: Market, side: Side, center: real, point: real, sign: Sign)
    requires i < |h|
    ensures Mass(h[i..], market, side, center, point, sign)
            == Times(h[i].count, Share(market, side, point, center + h[i].residual, sign))
               + Mass(h[i + 1..], market, side, center, point, sign)
  {
    assert h[i..][1..] == h[i + 1..];
  }

  lemma NoMass(market: Market, side: Side, center: real, point: real)
    ensures forall sign :: Mass([], market, side, center, point, sign) == 0.0
  {
  }

  function Weigh(count: nat, weight: real): real {
    count as real * weight
  }

  lemma SplitMass(count: nat, upperWeight: real, low: bool, high: bool)
    ensures Times(count, (if low then 1.0 - upperWeight else 0.0) + (if high then upperWeight else 0.0))
            == (if low then Weigh(count, 1.0 - upperWeight) else 0.0) + (if high then Weigh(count, upperWeight) else 0.0)
  {
    TimesAdds(count, if low then 1.0 - upperWeight else 0.0, if high then upperWeight else 0.0);
    TimesIsProduct(count, 1.0 - upperWeight);
    TimesIsProduct(count, upperWeight);
  }

  /** Specification of the settlement chances of a side at a line. */
  function SettlementOf(curve: Curve, center: real, point: real, side: Side): Settlement
    requires curve.sampleSize >= 1
  {
    var win := Chance(Mass(curve.histogram, curve.market, side, center, point, Wins), curve.sampleSize);
    var push := Chance(Mass(curve.histogram, curve.market, side, center, point, Pushes), curve.sampleSize);
    Settlement(win, push, 1.0 - win - push)
  }

  method Settle(curve: Curve, center: real, point: real, side: Side) returns (r: Result<Settlement, CurveError>)
    requires curve.Valid()
    ensures !SideFits(curve.market, side) ==> r == Err(SideMismatch)
    ensures SideFits(curve.market, side) ==> r == Ok(SettlementOf(curve, center, point, side))
  {
    if !SideFits(curve.market, side) {
      return Err(SideMismatch);
    }
    hide Chance, Share, Times, SignOf, SettlementResult, Mass;
    var win, push, loss := 0.0, 0.0, 0.0;
    ghost var h, wins, pushes := curve.histogram, Mass(curve.histogram, curve.market, side, center, point, Wins),
      Mass(curve.histogram, curve.market, side, center, point, Pushes);
    assert h[0..] == h;
    for i := 0 to |curve.histogram|
      invariant win + Mass(h[i..], curve.market, side, center, point, Wins) == wins
      invariant push + Mass(h[i..], curve.market, side, center, point, Pushes) == pushes
    {
      var bin := curve.histogram[i];
      MassFrom(h, i, curve.market, side, center, point, Wins);
      MassFrom(h, i, curve.market, side, center, point, Pushes);
      win, push, loss := AddBin(curve.market, side, point, center + bin.residual, bin.count, win, push, loss);
    }
    NoMass(curve.market, side, center, point);
    var values := (Chance(win, curve.sampleSize), Chance(push, curve.sampleSize));
    return Ok(Settlement(values.0, values.1, 1.0 - values.0 - values.1));
  }

  /** The inner loop: the two whole outcomes around one shifted residual. */
  method AddBin(market: Market, side: Side, point: real, continuous: real, count: nat, win0: real, push0: real, loss0: real)
    returns (win: real, push: real, loss: real)
    ensures win == win0 + Times(count, Share(market, side, point, continuous, Wins))
    ensures push == push0 + Times(count, Share(market, side, point, continuous, Pushes))
    ensures loss == loss0 + Times(count, Share(market, side, point, continuous, Loses))
  {
    win, push, loss := win0, push0, loss0;
    var lower := continuous.Floor as real;
    var upperWeight := continuous - lower;
    ghost var first := SignOf(SettlementResult(market, side, lower, point));
    ghost var second := SignOf(SettlementResult(market, side, lower + 1.0, point));
    SplitMass(count, upperWeight, first == Wins, second == Wins);
    SplitMass(count, upperWeight, first == Pushes, second == Pushes);
    SplitMass(count, upperWeight, first == Loses, second == Loses);
    hide Weigh;
    var mass := Weigh(count, 1.0 - upperWeight);
    var result := SettlementResult(market, side, lower, point);
    if result > 0.0 {
      win := win + mass;
    } else if result < 0.0 {
      loss := loss + mass;
    } else {
      push := push + mass;
    }
    mass := Weigh(count, upperWeight);
    result := SettlementResult(market, side, lower + 1.0, point);
    if result > 0.0 {
      win := win + mass;
    } else if result < 0.0 {
      loss := loss + mass;
    } else {
      push := push + mass;
    }
  }

  // ----- The shares are clamped ramps -----

  function Clamp(x: real): real {
    if x < 0.0 then 0.0 else if x > 1.0 then 1.0 else x
  }

  function Ceiling(x: real): int {
    -((-x).Floor)
  }

  predicate Rising(side: Side) {
    side == Home || side == Over
  }

  /** The outcome at which the side neither wins nor loses. */
  function Line(market: Market, side: Side, point: real): real {
    if market == Spread && side == Home then -point else point
  }

  /** Chance that an outcome spread around c ends above the line (or below it). */
  function Ramp(above: bool, line: real, c: real): real {
    if above then Clamp(c - line.Floor as real) else Clamp(Ceiling(line) as real - c)
  }

  /** Mass split around c: what lands above the line is the rising ramp. */
  lemma AboveShare(lower: int, w: real, line: real)
    requires 0.0 <= w < 1.0
    ensures (if lower as real > line then 1.0 - w else 0.0) + (if lower as real + 1.0 > line then w else 0.0)
            == Clamp(lower as real + w - line.Floor as real)
  {
    var whole := line.Floor;
    assert whole as real <= line < whole as real + 1.0;
    if lower > whole {
      assert lower as real >= whole as real + 1.0;
    } else if lower < whole {
      assert lower as real + 1.0 <= whole as real;
    }
  }

  lemma BelowShare(lower: int, w: real, line: real)
    requires 0.0 <= w < 1.0
    ensures (if (lower as real) < line then 1.0 - w else 0.0) + (if lower as real + 1.0 < line then w else 0.0)
            == Clamp(Ceiling(line) as real - (lower as real + w))
  {
    var whole := Ceiling(line);
    assert whole as real - 1.0 < line <= whole as real;
    if lower + 1 > whole {
      assert lower as real >= whole as real;
    } else if lower + 1 < whole {
      assert lower as real + 1.0 <= whole as real - 1.0;
    }
  }

  lemma SignsByLine(market: Market, side: Side, point: real, x: real)
    requires SideFits(market, side)
    ensures SignOf(SettlementResult(market, side, x, point)) == Wins
            <==> if Rising(side) then x > Line(market, side, point) else x < Line(market, side, point)
    ensures SignOf(SettlementResult(market, side, x, point)) == Loses
            <==> if Rising(side) then x < Line(market, side, point) else x > Line(market, side, point)
  {
  }

  lemma ShareIsRamp(market: Market, side: Side, point: real, c: real)
    requires SideFits(market, side)
    ensures Share(market, side, point, c, Wins) == Ramp(Rising(side), Line(market, side, point), c)
    ensures Share(market, side, point, c, Loses) == Ramp(!Rising(side), Line(market, side, point), c)
    ensures Share(market, side, point, c, Pushes) == 1.0 - Ramp(true, Line(market, side, point), c)
                                                     - Ramp(false, Line(market, side, point), c)
    ensures Share(market, side, point, c, Pushes) >= 0.0
  {
    var lower := c.Floor;
    var line := Line(market, side, point);
    SignsByLine(market, side, point, lower as real);
    SignsByLine(market, side, point, lower as real + 1.0);
    AboveShare(lower, c - lower as real, line);
    BelowShare(lower, c - lower as real, line);
    hide Clamp, Ceiling, SignOf, SettlementResult, Line;
  }

  function RampMass(h: seq<Bin>, above: bool, line: real, center: real): real {
    if h == [] then 0.0
    else Times(h[0].count, Ramp(above, line, center + h[0].residual)) + RampMass(h[1..], above, line, center)
  }

  lemma {:induction false} MassIsRampMass(h: seq<Bin>, market: Market, side: Side, center: real, point: real)
    requires SideFits(market, side)
    ensures Mass(h, market, side, center, point, Wins)
            == RampMass(h, Rising(side), Line(market, side, point), center)
    ensures Mass(h, market, side, center, point, Loses)
            == RampMass(h, !Rising(side), Line(market, side, point), center)
  {
    if h != [] {
      hide Share, Ramp, Times, Line;
      ShareIsRamp(market, side, point, center + h[0].residual);
      MassIsRampMass(h[1..], market, side, center, point);
    }
  }

  lemma OneBinFills(count: nat, w: real, p: real, l: real)
    requires w + p + l == 1.0 && p >= 0.0
    ensures Times(count, w) + Times(count, p) + Times(count, l) == count as real && Times(count, p) >= 0.0
  {
    TimesAdds(count, w, p);
    TimesAdds(count, w + p, l);
    TimesMono(count, 0.0, p);
  }

  /** The three masses fill the sample, and none of a push is negative. */
  lemma {:induction false} MassesFill(h: seq<Bin>, market: Market, side: Side, center: real, point: real)
    requires SideFits(market, side)
    ensures Mass(h, market, side, center, point, Wins) + Mass(h, market, side, center, point, Pushes)
            + Mass(h, market, side, center, point, Loses) == Count(h) as real
    ensures Mass(h, market, side, center, point, Pushes) >= 0.0
  {
    if h != [] {
      hide Share, Ramp, Times, Line;
      var c := center + h[0].residual;
      MassesFill(h[1..], market, side, center, point);
      SharesFill(market, side, point, c);
      OneBinFills(h[0].count, Share(market, side, point, c, Wins), Share(market, side, point, c, Pushes),
                  Share(market, side, point, c, Loses));
    }
  }

  lemma SharesFill(market: Market, side: Side, point: real, c: real)
    requires SideFits(market, side)
    ensures Share(market, side, point, c, Wins) + Share(market, side, point, c, Pushes) + Share(market, side, point, c, Loses) == 1.0
    ensures Share(market, side, point, c, Pushes) >= 0.0
  {
    hide Ramp, Line, SettlementResult;
    ShareIsRamp(market, side, point, c);
  }

  lemma {:induction false} RampMassBounds(h: seq<Bin>, above: bool, line: real, center: real)
    ensures 0.0 <= RampMass(h, above, line, center) <= Count(h) as real
  {
    if h != [] {
      RampMassBounds(h[1..], above, line, center);
      var ramp := Ramp(above, line, center + h[0].residual);
      TimesAdds(h[0].count, 0.0, 0.0);
      TimesMono(h[0].count, 0.0, ramp);
      TimesMono(h[0].count, ramp, 1.0);
    }
  }

  /** Raising the center by d raises each ramp by at most d, and never lowers a rising one. */
  lemma {:induction false} RampMassMoves(h: seq<Bin>, above: bool, line: real, center: real, d: real)
    requires d >= 0.0
    ensures above ==> RampMass(h, above, line, center) <= RampMass(h, above, line, center + d)
                      <= RampMass(h, above, line, center) + Times(Count(h), d)
    ensures !above ==> RampMass(h, above, line, center) - Times(Count(h), d)
                       <= RampMass(h, above, line, center + d) <= RampMass(h, above, line, center)
  {
    if h != [] {
      RampMassMoves(h[1..], above, line, center, d);
      var n := h[0].count;
      var before, after := Ramp(above, line, center + h[0].residual), Ramp(above, line, center + d + h[0].residual);
      TimesAdds(n, before, d);
      TimesAdds(n, after, d);
      if above {
        TimesMono(n, before, after);
        TimesMono(n, after, before + d);
      } else {
        TimesMono(n, after, before);
        TimesMono(n, before, after + d);
      }
      TimesSplits(h[0].count, Count(h[1..]), d);
    }
  }

  lemma {:induction false} TimesSplits(m: nat, n: nat, d: real)
    ensures Times(m + n, d) == Times(m, d) + Times(n, d)
  {
    if m > 0 { TimesSplits(m - 1, n, d); }
  }

  // ----- Main results about settlement -----

  lemma ChancesFill(w: real, p: real, l: real, n: nat)
    requires n >= 1 && w >= 0.0 && p >= 0.0 && l >= 0.0 && w + p + l == n as real
    ensures Chance(w, n) + Chance(p, n) + Chance(l, n) == 1.0
    ensures 0.0 <= Chance(w, n) && 0.0 <= Chance(p, n) && 0.0 <= Chance(l, n)
  {
    var total := n as real;
    DivLess(w, 0.0, total);
    DivLess(p, 0.0, total);
    DivLess(l, 0.0, total);
    SumOfQuotients(w, p, l, total);
  }

  lemma SumOfQuotients(w: real, p: real, l: real, n: real)
    requires n > 0.0 && w + p + l == n
    ensures w / n + p / n + l / n == 1.0
  {
    var x, y := w / n, p / n;
    assert x * n == w && y * n == p;
    assert (1.0 - x - y) * n == n - x * n - y * n;
    QuotientIs(l, n, 1.0 - x - y);
  }

  lemma ChanceMoves(a: real, b: real, d: real, n: nat)
    requires n >= 1 && a <= b <= a + Times(n, d)
    ensures Chance(a, n) <= Chance(b, n) <= Chance(a, n) + d
  {
    TimesIsProduct(n, d);
    QuotientMoves(a, b, d, n as real);
  }

  lemma QuotientMoves(a: real, b: real, d: real, n: real)
    requires n > 0.0 && a <= b <= a + n * d
    ensures a / n <= b / n <= a / n + d
  {
    var q := a / n;
    assert q * n == a;
    assert (q + d) * n == a + n * d;
    DivLess(b, q, n);
    DivLess(b, q + d, n);
  }

  lemma ConditionalRange(w: real, l: real)
    requires w >= 0.0 && l >= 0.0
    ensures 0.0 <= Conditional(w, l) <= 1.0
    ensures w == 0.0 ==> Conditional(w, l) == 0.0
    ensures w + l == 1.0 ==> Conditional(w, l) == w
  {
    if w + l > 0.0 {
      DivLess(w, 0.0, w + l);
      DivLess(w, 1.0, w + l);
      if w == 0.0 { QuotientIs(0.0, l, 0.0); }
    }
  }

  lemma ConditionalRises(w: real, l: real, w': real, l': real)
    requires 0.0 <= w <= w' && 0.0 <= l' <= l
    ensures Conditional(w, l) <= Conditional(w', l')
  {
    ConditionalRange(w, l);
    ConditionalRange(w', l');
    if w + l > 0.0 && w' + l' > 0.0 {
      var q := w / (w + l);
      assert q * (w + l) == w;
      GrowSlowly(q, w, l, w', l');
      DivLess(w', q, w' + l');
    }
  }

  lemma GrowSlowly(q: real, w: real, l: real, w': real, l': real)
    requires 0.0 <= q <= 1.0 && w <= w' && l' <= l && q * (w + l) == w
    ensures q * (w' + l') <= w'
  {
    ScaledSum(q, w + l, w' - w, l - l');
    assert (w + l) + (w' - w) - (l - l') == w' + l';
  }

  lemma ScaledSum(q: real, total: real, gain: real, drop: real)
    requires 0.0 <= q <= 1.0 && gain >= 0.0 && drop >= 0.0
    ensures q * (total + gain - drop) <= q * total + gain
  {
    MulMono(q, 1.0, gain);
    MulMono(0.0, q, drop);
    var a, b, c := q * total, q * gain, q * drop;
    assert b <= gain && c >= 0.0;
    assert q * (total + gain - drop) == a + b - c;
  }

  /** The chances are an average of clamped linear ramps, lie in [0, 1] and sum to one. */
  lemma SettlementIsRampAverage(curve: Curve, center: real, point: real, side: Side)
    requires curve.Valid() && SideFits(curve.market, side)
    ensures var s := SettlementOf(curve, center, point, side);
            var line := Line(curve.market, side, point);
            && s.win == Chance(RampMass(curve.histogram, Rising(side), line, center), curve.sampleSize)
            && s.loss == Chance(RampMass(curve.histogram, !Rising(side), line, center), curve.sampleSize)
            && s.win + s.push + s.loss == 1.0
            && 0.0 <= s.win && 0.0 <= s.push && 0.0 <= s.loss
  {
    hide Chance;
    var h, line := curve.histogram, Line(curve.market, side, point);
    MassIsRampMass(h, curve.market, side, center, point);
    MassesFill(h, curve.market, side, center, point);
    RampMassBounds(h, Rising(side), line, center);
    RampMassBounds(h, !Rising(side), line, center);
    ChancesFill(Mass(h, curve.market, side, center, point, Wins),
                Mass(h, curve.market, side, center, point, Pushes),
                Mass(h, curve.market, side, center, point, Loses), curve.sampleSize);
  }

  predicate WholeLine(line: real) {
    line == line.Floor as real
  }

  lemma LineKeepsFraction(market: Market, side: Side, point: real)
    requires !WholeLine(point)
    ensures !WholeLine(Line(market, side, point))
  {
    NegationIsWhole(point);
  }

  lemma NegationIsWhole(x: real)
    ensures WholeLine(-x) <==> WholeLine(x)
  {
    if WholeLine(x) { assert -x == (-(x.Floor)) as real; }
    if WholeLine(-x) { assert x == (-((-x).Floor)) as real; }
  }

  lemma ComplementaryRamps(line: real, c: real)
    requires !WholeLine(line)
    ensures Ramp(true, line, c) + Ramp(false, line, c) == 1.0
  {
    assert Ceiling(line) == line.Floor + 1;
  }

  lemma {:induction false} NoPushMass(h: seq<Bin>, line: real, center: real)
    requires !WholeLine(line)
    ensures RampMass(h, true, line, center) + RampMass(h, false, line, center) == Count(h) as real
  {
    if h != [] {
      hide Ramp;
      NoPushMass(h[1..], line, center);
      var c := center + h[0].residual;
      ComplementaryRamps(line, c);
      TimesAdds(h[0].count, Ramp(true, line, c), Ramp(false, line, c));
    }
  }

  /** Half points and quarter points cannot push, so there the conditional chance is the chance itself. */
  lemma NoPushOffWholeLines(curve: Curve, center: real, point: real, side: Side)
    requires curve.Valid() && SideFits(curve.market, side) && !WholeLine(point)
    ensures SettlementOf(curve, center, point, side).push == 0.0
    ensures SettlementOf(curve, center, point, side).ConditionalWin() == SettlementOf(curve, center, point, side).win
  {
    hide Chance, Conditional, SettlementOf, RampMass, WholeLine, Line;
    LineKeepsFraction(curve.market, side, point);
    var h, line := curve.histogram, Line(curve.market, side, point);
    SettlementIsRampAverage(curve, center, point, side);
    NoPushMass(h, line, center);
    RampMassBounds(h, true, line, center);
    RampMassBounds(h, false, line, center);
    ChancesFill(RampMass(h, true, line, center), 0.0, RampMass(h, false, line, center), curve.sampleSize);
    NothingOfAll(curve.sampleSize);
    var s := SettlementOf(curve, center, point, side);
    ConditionalRange(s.win, s.loss);
  }

  lemma NothingOfAll(n: nat)
    requires n >= 1
    ensures Chance(0.0, n) == 0.0 && Chance(n as real, n) == 1.0
  {
    QuotientIs(0.0, n as real, 0.0);
    QuotientIs(n as real, n as real, 1.0);
  }

  /** Raising the center by d moves the win chance toward a rising side by between nothing and d. */
  lemma WinMovesWithCenter(curve: Curve, center: real, d: real, point: real, side: Side)
    requires curve.Valid() && SideFits(curve.market, side) && d >= 0.0
    ensures var s, t := SettlementOf(curve, center, point, side), SettlementOf(curve, center + d, point, side);
            && (Rising(side) ==> s.win <= t.win <= s.win + d && s.loss - d <= t.loss <= s.loss)
            && (!Rising(side) ==> s.win - d <= t.win <= s.win && s.loss <= t.loss <= s.loss + d)
  {
    hide Chance, Mass;
    var line, n, h := Line(curve.market, side, point), curve.sampleSize, curve.histogram;
    SettlementIsRampAverage(curve, center, point, side);
    SettlementIsRampAverage(curve, center + d, point, side);
    RampMassMoves(h, true, line, center, d);
    RampMassMoves(h, false, line, center, d);
    ChanceMoves(RampMass(h, true, line, center), RampMass(h, true, line, center + d), d, n);
    ChanceMoves(RampMass(h, false, line, center + d), RampMass(h, false, line, center), d, n);
  }

  /** As the center rises the conditional win chance never falls for home and over, and never rises for away and under,
      all-push lines included. */
  lemma ConditionalWinFollowsCenter(curve: Curve, center: real, center': real, point: real, side: Side)
    requires curve.Valid() && SideFits(curve.market, side) && center <= center'
    ensures var before, after := SettlementOf(curve, center, point, side), SettlementOf(curve, center', point, side);
            if Rising(side) then before.ConditionalWin() <= after.ConditionalWin()
            else after.ConditionalWin() <= before.ConditionalWin()
  {
    hide Conditional, SettlementOf;
    var s, t := SettlementOf(curve, center, point, side), SettlementOf(curve, center', point, side);
    WinMovesWithCenter(curve, center, center' - center, point, side);
    SettlementIsRampAverage(curve, center, point, side);
    SettlementIsRampAverage(curve, center', point, side);
    if Rising(side) {
      ConditionalRises(s.win, s.loss, t.win, t.loss);
    } else {
      ConditionalRises(t.win, t.loss, s.win, s.loss);
    }
  }

  function Opposite(side: Side): Side {
    match side
    case Home => Away
    case Away => Home
    case Over => Under
    case Under => Over
  }

  /** The other side's number for the same line. */
  function OppositePoint(market: Market, point: real): real {
    if market == Spread then -point else point
  }

  /** The two sides of a line exchange win and loss and share the push. */
  lemma OppositeSidesSwap(curve: Curve, center: real, point: real, side: Side)
    requires curve.Valid() && SideFits(curve.market, side)
    ensures var s := SettlementOf(curve, center, point, side);
            var t := SettlementOf(curve, center, OppositePoint(curve.market, point), Opposite(side));
            t.win == s.loss && t.loss == s.win && t.push == s.push
  {
    hide SettlementOf, Chance;
    SettlementIsRampAverage(curve, center, point, side);
    SettlementIsRampAverage(curve, center, OppositePoint(curve.market, point), Opposite(side));
  }

  lemma {:induction false} RampMassShifts(h: seq<Bin>, above: bool, line: real, center: real, k: int)
    ensures RampMass(h, above, line + k as real, center + k as real) == RampMass(h, above, line, center)
  {
    if h != [] {
      RampMassShifts(h[1..], above, line, center, k);
      FloorShifts(line, k);
      FloorShifts(-line, -k);
    }
  }

  lemma FloorShifts(x: real, k: int)
    ensures (x + k as real).Floor == x.Floor + k
  {
  }

  /** Moving the center and the line by the same whole number changes nothing. */
  lemma WholeShiftChangesNothing(curve: Curve, center: real, point: real, side: Side, k: int)
    requires curve.Valid() && SideFits(curve.market, side)
    ensures var moved := if curve.market == Spread && side == Home then point - k as real else point + k as real;
            SettlementOf(curve, center + k as real, moved, side) == SettlementOf(curve, center, point, side)
  {
    hide SettlementOf, Chance;
    var moved := if curve.market == Spread && side == Home then point - k as real else point + k as real;
    var line := Line(curve.market, side, point);
    assert Line(curve.market, side, moved) == line + k as real;
    RampMassShifts(curve.histogram, true, line, center, k);
    RampMassShifts(curve.histogram, false, line, center, k);
    SettlementIsRampAverage(curve, center, point, side);
    SettlementIsRampAverage(curve, center + k as real, moved, side);
  }

  // ----- Inverting the curve by bisection -----

  const BISECTION_STEPS := 36

  function Base(market: Market, point: real): real {
    if market == Spread then -point else point
  }

  function Pow2(n: nat): nat {
    if n == 0 then 1 else 2 * Pow2(n - 1)
  }

  lemma {:induction false} Pow2Positive(n: nat)
    ensures Pow2(n) >= 1
  {
    if n > 0 { Pow2Positive(n - 1); }
  }

  /** Half the bracket that is left after every step. */
  ghost function HalfBracket(): real {
    Pow2Positive(BISECTION_STEPS);
    40.0 / Pow2(BISECTION_STEPS) as real
  }

  /** How far the inferred center can be from the crossing: half the last bracket and half a grid step. */
  ghost function CenterError(): real {
    HalfBracket() + 0.0000000005
  }

  /** The curve read at a center: the first side's chance given that the bet resolves. */
  function Reading(curve: Curve, point: real, center: real): real
    requires curve.sampleSize >= 1
  {
    SettlementOf(curve, center, point, FirstSide(curve.market)).ConditionalWin()
  }

  function Bisect(curve: Curve, point: real, target: real, lower: real, upper: real, steps: nat): (real, real)
    requires curve.sampleSize >= 1
    decreases steps
  {
    if steps == 0 then (lower, upper)
    else
      var midpoint := (lower + upper) / 2.0;
      if Reading(curve, point, midpoint) < target then Bisect(curve, point, target, midpoint, upper, steps - 1)
      else Bisect(curve, point, target, lower, midpoint, steps - 1)
  }

  /** Specification of the inferred center. */
  function InferredCenter(curve: Curve, point: real, target: real): real
    requires curve.sampleSize >= 1
  {
    var base := Base(curve.market, point);
    var bracket := Bisect(curve, point, target, base - 40.0, base + 40.0, BISECTION_STEPS);
    Quantize((bracket.0 + bracket.1) / 2.0, CENTER_SCALE)
  }

  lemma BisectStep(curve: Curve, point: real, target: real, lower: real, upper: real, steps: nat)
    requires curve.sampleSize >= 1
    ensures var midpoint := (lower + upper) / 2.0;
            Bisect(curve, point, target, lower, upper, steps)
            == if steps == 0 then (lower, upper)
               else if Reading(curve, point, midpoint) < target then Bisect(curve, point, target, midpoint, upper, steps - 1)
               else Bisect(curve, point, target, lower, midpoint, steps - 1)
  {
  }

  method InferCenter(curve: Curve, point: real, target: real) returns (r: Result<real, CurveError>)
    requires curve.Valid()
    ensures !(0.0 < target < 1.0) ==> r == Err(ProbabilityNotInside)
    ensures 0.0 < target < 1.0 ==> r == Ok(InferredCenter(curve, point, target))
  {
    hide Quantize, Bisect;
    if !(0.0 < target < 1.0) {
      return Err(ProbabilityNotInside);
    }
    var base := Base(curve.market, point);
    var lower, upper := NarrowBracket(curve, point, target, base - 40.0, base + 40.0, BISECTION_STEPS);
    return Ok(Quantize((lower + upper) / 2.0, CENTER_SCALE));
  }

  /** The loop of the bisection. */
  method NarrowBracket(curve: Curve, point: real, target: real, from: real, to: real, steps: nat)
    returns (lower: real, upper: real)
    requires curve.Valid()
    ensures (lower, upper) == Bisect(curve, point, target, from, to, steps)
  {
    hide Bisect, SettlementOf, Conditional;
    lower, upper := from, to;
    for i := 0 to steps
      invariant Bisect(curve, point, target, lower, upper, steps - i) == Bisect(curve, point, target, from, to, steps)
    {
      BisectStep(curve, point, target, lower, upper, steps - i);
      var midpoint := (lower + upper) / 2.0;
      var settlement := Settle(curve, midpoint, point, FirstSide(curve.market));
      if settlement.value.ConditionalWin() < target {
        lower := midpoint;
      } else {
        upper := midpoint;
      }
    }
    BisectStep(curve, point, target, lower, upper, 0);
  }

  ghost predicate Straddles(curve: Curve, point: real, target: real, lower: real, upper: real)
    requires curve.sampleSize >= 1
  {
    Reading(curve, point, lower) < target <= Reading(curve, point, upper)
  }

  /** Each step halves the bracket and keeps the target between its readings. */
  lemma {:induction false} BisectNarrows(curve: Curve, point: real, target: real, lower: real, upper: real, steps: nat)
    requires curve.Valid()
    ensures Pow2(steps) >= 1
    ensures var b := Bisect(curve, point, target, lower, upper, steps);
            && b.1 - b.0 == (upper - lower) / Pow2(steps) as real
            && (Straddles(curve, point, target, lower, upper) ==> Straddles(curve, point, target, b.0, b.1))
    decreases steps
  {
    hide Reading, Bisect, Pow2;
    Pow2Positive(steps);
    BisectStep(curve, point, target, lower, upper, steps);
    if steps == 0 {
      OneStepless(upper - lower);
    } else {
      var midpoint := (lower + upper) / 2.0;
      var below := Reading(curve, point, midpoint) < target;
      if below {
        BisectNarrows(curve, point, target, midpoint, upper, steps - 1);
      } else {
        BisectNarrows(curve, point, target, lower, midpoint, steps - 1);
      }
      HalfStep(upper - lower, steps);
    }
  }

  lemma OneStepless(x: real)
    ensures Pow2(0) == 1 && x / Pow2(0) as real == x
  {
  }

  lemma HalfStep(x: real, steps: nat)
    requires steps > 0
    ensures Pow2(steps - 1) >= 1 && Pow2(steps) >= 1
    ensures x / 2.0 / Pow2(steps - 1) as real == x / Pow2(steps) as real
  {
    Pow2Positive(steps - 1);
    HalfOver(x, Pow2(steps - 1) as real);
  }

  lemma HalfOver(x: real, n: real)
    requires n > 0.0
    ensures x / 2.0 / n == x / (2.0 * n)
  {
    var q := x / (2.0 * n);
    assert q * (2.0 * n) == x;
    assert q * n == x / 2.0;
    QuotientIs(x / 2.0, n, q);
  }

  lemma LastBracket(curve: Curve, point: real, target: real) returns (lower: real, upper: real)
    requires curve.Valid()
    requires var base := Base(curve.market, point); Straddles(curve, point, target, base - 40.0, base + 40.0)
    ensures Straddles(curve, point, target, lower, upper)
    ensures upper - lower == 2.0 * HalfBracket() && HalfBracket() >= 0.0
    ensures Abs(InferredCenter(curve, point, target) - (lower + upper) / 2.0) <= 0.0000000005
  {
    hide Reading, Quantize, Pow2;
    var base := Base(curve.market, point);
    BisectNarrows(curve, point, target, base - 40.0, base + 40.0, BISECTION_STEPS);
    var b := Bisect(curve, point, target, base - 40.0, base + 40.0, BISECTION_STEPS);
    lower, upper := b.0, b.1;
    TwoHalves(Pow2(BISECTION_STEPS) as real);
    QuantizedCenterNear((lower + upper) / 2.0);
  }

  lemma TwoHalves(n: real)
    requires n > 0.0
    ensures 80.0 / n == 2.0 * (40.0 / n) && 40.0 / n >= 0.0
  {
    DivLess(40.0, 0.0, n);
    var q := 40.0 / n;
    assert q * n == 40.0;
    QuotientIs(80.0, n, 2.0 * q);
  }

  /** The inferred center is within CenterError of the place where the reading crosses the target. */
  lemma InferredCenterNearCrossing(curve: Curve, point: real, target: real, x: real)
    requires curve.Valid()
    requires var base := Base(curve.market, point); Straddles(curve, point, target, base - 40.0, base + 40.0)
    ensures x <= InferredCenter(curve, point, target) - CenterError() ==> Reading(curve, point, x) < target
    ensures x >= InferredCenter(curve, point, target) + CenterError() ==> Reading(curve, point, x) >= target
  {
    var lower, upper := LastBracket(curve, point, target);
    var side := FirstSide(curve.market);
    if x <= InferredCenter(curve, point, target) - CenterError() {
      ConditionalWinFollowsCenter(curve, x, lower, point, side);
    } else if x >= InferredCenter(curve, point, target) + CenterError() {
      ConditionalWinFollowsCenter(curve, upper, x, point, side);
    }
  }

  /** Off whole lines, reading the curve at the inferred center gives the probability back within CenterError. */
  lemma InferredCenterRecoversProbability(curve: Curve, point: real, target: real)
    requires curve.Valid() && !WholeLine(point)
    requires var base := Base(curve.market, point); Straddles(curve, point, target, base - 40.0, base + 40.0)
    ensures Abs(SettlementOf(curve, InferredCenter(curve, point, target), point, FirstSide(curve.market)).win - target)
            <= CenterError()
  {
    var lower, upper := LastBracket(curve, point, target);
    var side := FirstSide(curve.market);
    var center := InferredCenter(curve, point, target);
    NoPushOffWholeLines(curve, lower, point, side);
    NoPushOffWholeLines(curve, upper, point, side);
    ReadingsWithin(curve, point, lower, center);
    ReadingsWithin(curve, point, upper, center);
  }

  lemma ReadingsWithin(curve: Curve, point: real, a: real, b: real)
    requires curve.Valid()
    ensures var side := FirstSide(curve.market);
            Abs(SettlementOf(curve, a, point, side).win - SettlementOf(curve, b, point, side).win) <= Abs(a - b)
    ensures a <= b ==> SettlementOf(curve, a, point, FirstSide(curve.market)).win
                       <= SettlementOf(curve, b, point, FirstSide(curve.market)).win
  {
    if a <= b {
      WinMovesWithCenter(curve, a, b - a, point, FirstSide(curve.market));
    } else {
      WinMovesWithCenter(curve, b, a - b, point, FirstSide(curve.market));
    }
  }

  // ----- When the bracket straddles, and what happens when it does not -----

  /** The mass of the residuals past t, one less than a point past it counted in part. */
  function Beyond(h: seq<Bin>, t: real): real {
    if h == [] then 0.0 else Times(h[0].count, Clamp(h[0].residual - t)) + Beyond(h[1..], t)
  }

  /** The mass of the residuals short of t, counted likewise. */
  function Short(h: seq<Bin>, t: real): real {
    if h == [] then 0.0 else Times(h[0].count, Clamp(t - h[0].residual)) + Short(h[1..], t)
  }

  /** Checked on the histogram alone: few enough residuals reach 40 points up, and few enough reach 40 points down. */
  predicate TailsAllow(h: seq<Bin>, line: real, target: real) {
    var past, left := line - line.Floor as real, Ceiling(line) as real - line;
    && (Beyond(h, 40.0 - past) == 0.0 || (1.0 - target) * Beyond(h, 40.0 - past) < target * Short(h, 40.0 + left))
    && Beyond(h, -40.0 - past) > 0.0
    && target * Short(h, -40.0 + left) <= (1.0 - target) * Beyond(h, -40.0 - past)
  }

  lemma {:induction false} RampMassIsTail(h: seq<Bin>, line: real, reach: real)
    ensures RampMass(h, true, line, line + reach) == Beyond(h, line.Floor as real - line - reach)
    ensures RampMass(h, false, line, line + reach) == Short(h, Ceiling(line) as real - line - reach)
  {
    if h != [] {
      hide Ceiling, Clamp, Times;
      RampMassIsTail(h[1..], line, reach);
      var r := h[0].residual;
      assert line + reach + r - line.Floor as real == r - (line.Floor as real - line - reach);
      assert Ceiling(line) as real - (line + reach + r) == Ceiling(line) as real - line - reach - r;
    }
  }

  lemma ConditionalScales(w: real, l: real, n: real)
    requires n > 0.0 && w >= 0.0 && l >= 0.0
    ensures Conditional(w / n, l / n) == Conditional(w, l)
  {
    var x, y := w / n, l / n;
    assert x * n == w && y * n == l;
    assert (x + y) * n == w + l;
    if w + l != 0.0 {
      var q := w / (w + l);
      assert q * (w + l) == w;
      assert (q * (x + y)) * n == w;
      QuotientIs(w, n, q * (x + y));
      QuotientIs(x, x + y, q);
    } else {
      QuotientIs(0.0, n, 0.0);
    }
  }

  lemma ConditionalBelow(w: real, l: real, target: real)
    requires w >= 0.0 && l >= 0.0 && 0.0 < target < 1.0
    ensures Conditional(w, l) < target <==> w == 0.0 || (1.0 - target) * w < target * l
  {
    ConditionalRange(w, l);
    if w + l != 0.0 {
      DivLess(w, target, w + l);
      assert (1.0 - target) * w == w - target * w;
      assert target * (w + l) == target * w + target * l;
      if w == 0.0 { MulPositive(target, w + l); }
    }
  }

  /** The reading at a center that lies `reach` from the line, from the tails of the histogram. */
  lemma ReadingFromTails(curve: Curve, point: real, reach: real, target: real)
    requires curve.Valid() && 0.0 < target < 1.0
    ensures var line := Base(curve.market, point);
            var won, lost := Beyond(curve.histogram, line.Floor as real - line - reach), Short(curve.histogram, Ceiling(line) as real - line - reach);
            && won >= 0.0 && lost >= 0.0
            && (Reading(curve, point, line + reach) < target <==> won == 0.0 || (1.0 - target) * won < target * lost)
  {
    hide Beyond, Short, Ramp, Conditional, SettlementOf;
    var side, line := FirstSide(curve.market), Base(curve.market, point);
    var h, n := curve.histogram, curve.sampleSize;
    assert Line(curve.market, side, point) == line;
    SettlementIsRampAverage(curve, line + reach, point, side);
    RampMassIsTail(h, line, reach);
    RampMassBounds(h, true, line, line + reach);
    RampMassBounds(h, false, line, line + reach);
    var won, lost := RampMass(h, true, line, line + reach), RampMass(h, false, line, line + reach);
    ConditionalScales(won, lost, n as real);
    ConditionalBelow(won, lost, target);
  }

  /** The 80 points around the line hold the crossing if and only if the tails of the histogram allow it. */
  lemma StraddlesExactly(curve: Curve, point: real, target: real)
    requires curve.Valid() && 0.0 < target < 1.0
    ensures var base := Base(curve.market, point);
            Straddles(curve, point, target, base - 40.0, base + 40.0) <==> TailsAllow(curve.histogram, base, target)
  {
    hide Beyond, Short, Reading;
    var base := Base(curve.market, point);
    var past, left := base - base.Floor as real, Ceiling(base) as real - base;
    ReadingFromTails(curve, point, -40.0, target);
    ReadingFromTails(curve, point, 40.0, target);
    assert base.Floor as real - base - -40.0 == 40.0 - past && base.Floor as real - base - 40.0 == -40.0 - past;
    assert Ceiling(base) as real - base - -40.0 == 40.0 + left && Ceiling(base) as real - base - 40.0 == -40.0 + left;
  }

  /** In particular it does when every residual stays within 39 points. */
  lemma ModestResidualsStraddle(curve: Curve, point: real, target: real)
    requires curve.Valid() && 0.0 < target < 1.0
    requires forall bin <- curve.histogram :: -39.0 <= bin.residual <= 39.0
    ensures var base := Base(curve.market, point); Straddles(curve, point, target, base - 40.0, base + 40.0)
  {
    hide Beyond, Short, Straddles, Count;
    var base := Base(curve.market, point);
    ModestTails(curve.histogram, base - base.Floor as real, Ceiling(base) as real - base);
    NothingLost(target, Count(curve.histogram) as real);
    StraddlesExactly(curve, point, target);
  }

  lemma NothingLost(target: real, won: real)
    requires 0.0 < target < 1.0 && won > 0.0
    ensures target * 0.0 <= (1.0 - target) * won
  {
    MulPositive(1.0 - target, won);
  }

  lemma {:induction false} ModestTails(h: seq<Bin>, past: real, left: real)
    requires 0.0 <= past < 1.0 && 0.0 <= left < 1.0
    requires forall bin <- h :: -39.0 <= bin.residual <= 39.0
    ensures Beyond(h, 40.0 - past) == 0.0 && Short(h, 40.0 + left) == Count(h) as real
    ensures Beyond(h, -40.0 - past) == Count(h) as real && Short(h, -40.0 + left) == 0.0
  {
    if h != [] {
      assert h[0] in h && forall bin <- h[1..] :: bin in h;
      ModestTails(h[1..], past, left);
      TimesAdds(h[0].count, 0.0, 0.0);
    }
  }

  lemma {:induction false} BisectStaysAtEdge(curve: Curve, point: real, target: real, lower: real, upper: real, steps: nat)
    requires curve.Valid() && lower <= upper
    ensures target <= Reading(curve, point, lower) ==> Bisect(curve, point, target, lower, upper, steps).0 == lower
    ensures Reading(curve, point, upper) < target ==> Bisect(curve, point, target, lower, upper, steps).1 == upper
    decreases steps
  {
    hide Bisect, SettlementOf, Conditional;
    BisectStep(curve, point, target, lower, upper, steps);
    if steps > 0 {
      var midpoint := (lower + upper) / 2.0;
      ConditionalWinFollowsCenter(curve, lower, midpoint, point, FirstSide(curve.market));
      ConditionalWinFollowsCenter(curve, midpoint, upper, point, FirstSide(curve.market));
      if Reading(curve, point, midpoint) < target {
        BisectStaysAtEdge(curve, point, target, midpoint, upper, steps - 1);
      } else {
        BisectStaysAtEdge(curve, point, target, lower, midpoint, steps - 1);
      }
    }
  }

  /** When the reading is at the target or above it all over the bracket, the inferred center is at the bracket's lower end;
      when it is below all over, at the upper end. */
  lemma InferredCenterStopsAtEdge(curve: Curve, point: real, target: real)
    requires curve.Valid()
    ensures var base, center := Base(curve.market, point), InferredCenter(curve, point, target);
            && (target <= Reading(curve, point, base - 40.0) ==> Abs(center - (base - 40.0)) <= CenterError())
            && (Reading(curve, point, base + 40.0) < target ==> Abs(center - (base + 40.0)) <= CenterError())
  {
    hide Reading, Quantize, Pow2;
    var base := Base(curve.market, point);
    BisectNarrows(curve, point, target, base - 40.0, base + 40.0, BISECTION_STEPS);
    BisectStaysAtEdge(curve, point, target, base - 40.0, base + 40.0, BISECTION_STEPS);
    var b := Bisect(curve, point, target, base - 40.0, base + 40.0, BISECTION_STEPS);
    TwoHalves(Pow2(BISECTION_STEPS) as real);
    QuantizedCenterNear((b.0 + b.1) / 2.0);
  }
}
