// The amounts of a spot quote: platform fee, expected output and minimum output,
// each rounded to 18 digits and passed on as a string.
module Quotes {
  import opened Results
  import opened Decimal
  import opened Money

  const PLATFORM_FEE_BPS := 30
  const DEFAULT_SLIPPAGE_BPS := 100
  const MAX_SLIPPAGE_BPS := 5000

  datatype Amounts = Amounts(fee: string, output: string, minOutput: string, slippageBps: int)

  function QuoteAmounts(input: string, slippageBps: int): Result<Amounts, Error> {
    var bps := EffectiveSlippage(slippageBps);
    if bps > MAX_SLIPPAGE_BPS then Err(SlippageTooHigh)
    else
      var _ :- Parse(input);
      var fee :- MultiplyBps(input, PLATFORM_FEE_BPS);
      var output :- Sub(input, fee);
      var slippage :- MultiplyBps(output, bps);
      var minOutput :- Sub(output, slippage);
      Ok(Amounts(fee, output, minOutput, bps))
  }

  function EffectiveSlippage(slippageBps: int): int {
    if slippageBps <= 0 then DEFAULT_SLIPPAGE_BPS else slippageBps
  }

  // The amounts as numbers, each stage rounded.
  function FeeOf(x: real): real
    requires x >= 0.0
  {
    Round18(BpsShare(x, PLATFORM_FEE_BPS))
  }

  function OutputOf(x: real): (r: real)
    requires x >= 0.0
    ensures r >= 0.0
  {
    FeeAtMostInput(x);
    Round18(x - FeeOf(x))
  }

  function SlippageOf(output: real, bps: int): (r: real)
    requires output >= 0.0 && 0 < bps <= MAX_SLIPPAGE_BPS
    ensures r >= 0.0
  {
    ScaledRange(output, bps);
    Round18(BpsShare(output, bps))
  }

  lemma Product(a: real, b: real)
    requires a >= 0.0 && b >= 0.0
    ensures a * b >= 0.0
  {
  }

  lemma HalfScaled(x: real, r: real)
    requires x >= 0.0 && 0.0 <= r <= 0.5
    ensures 0.0 <= x * r <= x * 0.5
  {
    Product(x, r);
    Product(x, 0.5 - r);
    assert x * (0.5 - r) == x * 0.5 - x * r;
  }

  lemma ScaledRange(output: real, bps: int)
    requires output >= 0.0 && 0 < bps <= MAX_SLIPPAGE_BPS
    ensures 0.0 <= BpsShare(output, bps) <= output * 0.5
  {
    HalfScaled(output, bps as real / 10000.0);
  }

  // Rounding the fee up never takes it past the input.
  lemma FeeAtMostInput(x: real)
    requires x >= 0.0
    ensures 0.0 <= FeeOf(x) <= x
  {
    var scaled := BpsShare(x, PLATFORM_FEE_BPS);
    assert scaled == x * 0.003;
    UnitsOfRounded(scaled);
    var u, n := Units(x), Nearest(Units(scaled));
    assert Units(scaled) == u * 0.003;
    if n > 0 {
      assert n as real - 0.5 <= u * 0.003;
      assert u >= 1.0 ==> n as real <= u;
      assert u >= 0.5 / 0.003;
    }
  }

  // Slippage of at most half of a printed amount, rounded, is at most that amount.
  lemma SlippageAtMostOutput(output: real, bps: int)
    requires output >= 0.0 && OnGrid(output) && 0 < bps <= MAX_SLIPPAGE_BPS
    ensures 0.0 <= SlippageOf(output, bps) <= output
    ensures OnGrid(SlippageOf(output, bps)) && OnGrid(output - SlippageOf(output, bps))
  {
    var scaled := BpsShare(output, bps);
    ScaledRange(output, bps);
    RoundIsNearest(scaled);
    UnitsOfRounded(scaled);
    var o, s := Units(output).Floor, Nearest(Units(scaled));
    assert Units(scaled) <= Units(output * 0.5) == o as real * 0.5;
    assert s as real - 0.5 <= o as real * 0.5;
    assert Units(output - SlippageOf(output, bps)) == (o - s) as real;
    assert ((o - s) as real).Floor == o - s;
  }

  function MinOutputOf(output: real, bps: int): real
    requires output >= 0.0 && 0 < bps <= MAX_SLIPPAGE_BPS
  {
    output - SlippageOf(output, bps)
  }

  // The strings of a quote denote those numbers, and a quote fails only on a bad
  // amount or too much slippage: neither subtraction ever comes out negative.
  lemma QuoteValues(input: string, slippageBps: int)
    ensures var q, bps := QuoteAmounts(input, slippageBps), EffectiveSlippage(slippageBps);
            if bps > MAX_SLIPPAGE_BPS then q == Err(SlippageTooHigh)
            else match Parse(input)
                 case Err(e) => q == Err(e)
                 case Ok(x) =>
                   && q.Ok? && q.value.slippageBps == bps
                   && Parse(q.value.fee) == Ok(FeeOf(x))
                   && Parse(q.value.output) == Ok(OutputOf(x))
                   && Parse(q.value.minOutput) == Ok(MinOutputOf(OutputOf(x), bps))
  {
    hide Parse;
    hide MultiplyBps;
    hide Sub;
    hide FeeOf;
    hide MinOutputOf;
    var bps := EffectiveSlippage(slippageBps);
    if bps <= MAX_SLIPPAGE_BPS && Parse(input).Ok? {
      var x := Parse(input).value;
      FeeStage(input, x);
      var fee := MultiplyBps(input, PLATFORM_FEE_BPS).value;
      OutputStage(input, fee, x);
      SlippageStage(Sub(input, fee).value, OutputOf(x), bps);
    }
  }

  lemma FeeStage(input: string, x: real)
    requires Parse(input) == Ok(x)
    ensures x >= 0.0
    ensures var fee := MultiplyBps(input, PLATFORM_FEE_BPS); fee.Ok? && Parse(fee.value) == Ok(FeeOf(x))
  {
    MultiplyBpsValue(input, PLATFORM_FEE_BPS);
  }

  lemma OutputStage(input: string, fee: string, x: real)
    requires Parse(input) == Ok(x) && x >= 0.0 && Parse(fee) == Ok(FeeOf(x))
    ensures var output := Sub(input, fee);
            output.Ok? && Parse(output.value) == Ok(OutputOf(x)) && OnGrid(OutputOf(x))
  {
    hide Parse;
    hide Sub;
    FeeAtMostInput(x);
    SubValue(input, fee);
    RoundIsNearest(x - FeeOf(x));
  }

  lemma SlippageStage(output: string, out: real, bps: int)
    requires out >= 0.0 && OnGrid(out) && Parse(output) == Ok(out) && 0 < bps <= MAX_SLIPPAGE_BPS
    ensures var slippage := MultiplyBps(output, bps);
            && slippage.Ok?
            && var min := Sub(output, slippage.value);
               min.Ok? && Parse(min.value) == Ok(MinOutputOf(out, bps))
  {
    hide Parse;
    hide Sub;
    hide MultiplyBps;
    ScaledRange(out, bps);
    MultiplyBpsValue(output, bps);
    SlippageAtMostOutput(out, bps);
    SubValue(output, MultiplyBps(output, bps).value);
    RoundIsNearest(out - SlippageOf(out, bps));
  }

  // The same amounts counted in units of 10^-18, where every rounding is to an integer.
  function FeeUnits(x: real): nat
    requires x >= 0.0
  {
    Nearest(Units(BpsShare(x, PLATFORM_FEE_BPS)))
  }

  function OutputUnits(x: real): nat
    requires x >= 0.0
  {
    FeeAtMostInput(x);
    Nearest(Units(x - FeeOf(x)))
  }

  function SlippageUnits(output: real, bps: int): nat
    requires output >= 0.0 && 0 < bps <= MAX_SLIPPAGE_BPS
  {
    ScaledRange(output, bps);
    Nearest(Units(BpsShare(output, bps)))
  }

  lemma FeeInUnits(x: real)
    requires x >= 0.0
    ensures Units(FeeOf(x)) == FeeUnits(x) as real
    ensures FeeUnits(x) as real - 0.5 <= Units(x) * 0.003 < FeeUnits(x) as real + 0.5
  {
    UnitsOfRounded(BpsShare(x, PLATFORM_FEE_BPS));
    assert Units(BpsShare(x, PLATFORM_FEE_BPS)) == Units(x) * 0.003;
  }

  lemma OutputInUnits(x: real)
    requires x >= 0.0
    ensures Units(OutputOf(x)) == OutputUnits(x) as real
    ensures OutputUnits(x) as real - 0.5 <= Units(x) - FeeUnits(x) as real < OutputUnits(x) as real + 0.5
  {
    hide FeeOf;
    FeeAtMostInput(x);
    FeeInUnits(x);
    UnitsOfRounded(x - FeeOf(x));
    assert Units(x - FeeOf(x)) == Units(x) - Units(FeeOf(x));
  }

  lemma SlippageInUnits(output: real, bps: int)
    requires output >= 0.0 && 0 < bps <= MAX_SLIPPAGE_BPS
    ensures var s := SlippageUnits(output, bps);
            && Units(SlippageOf(output, bps)) == s as real
            && s as real - 0.5 <= BpsShare(Units(output), bps) < s as real + 0.5
            && Units(MinOutputOf(output, bps)) == Units(output) - s as real
  {
    ScaledRange(output, bps);
    UnitsOfRounded(BpsShare(output, bps));
    ShareOfUnits(output, bps);
    assert Units(output - SlippageOf(output, bps)) == Units(output) - Units(SlippageOf(output, bps));
  }

  lemma ShareOfUnits(v: real, bps: int)
    ensures Units(BpsShare(v, bps)) == BpsShare(Units(v), bps)
  {
    Commute(v, bps as real / 10000.0, 1000000000000000000.0);
  }

  lemma Commute(a: real, b: real, c: real)
    ensures a * b * c == a * c * b
  {
  }

  lemma UnitsOrder(a: real, b: real)
    ensures a <= b <==> Units(a) <= Units(b)
    ensures a == b <==> Units(a) == Units(b)
    ensures Units(a + b) == Units(a) + Units(b)
    ensures Units(a - b) == Units(a) - Units(b)
    ensures a >= 0.0 ==> Units(a) >= 0.0
  {
  }

  // Fee and output add up to the input to within half a unit, and exactly when the
  // input has at most 18 fractional digits.
  lemma FeeAndOutputConserve(x: real)
    requires x >= 0.0
    ensures -0.5 <= Units(x) - Units(FeeOf(x)) - Units(OutputOf(x)) < 0.5
    ensures FeeOf(x) + OutputOf(x) == x <==> OnGrid(x)
  {
    hide *;
    FeeInUnits(x);
    OutputInUnits(x);
    UnitsOrder(FeeOf(x), OutputOf(x));
    UnitsOrder(FeeOf(x) + OutputOf(x), x);
    OnGridUnits(x);
    WholeWithinHalf(Units(x), FeeUnits(x) + OutputUnits(x));
  }

  lemma OnGridUnits(x: real)
    ensures OnGrid(x) <==> Units(x).Floor as real == Units(x)
  {
  }

  lemma WholeWithinHalf(u: real, n: int)
    requires -0.5 <= u - n as real < 0.5
    ensures u == n as real <==> u.Floor as real == u
  {
    if u.Floor as real == u {
      assert u.Floor == n;
    }
  }

  // The fee is the nearest printable amount to 0.3% of the input; the minimum output is
  // within half a unit of (10000 - bps)/10000 of the output and never above it.
  lemma QuoteBounds(x: real, bps: int)
    requires x >= 0.0 && 0 < bps <= MAX_SLIPPAGE_BPS
    ensures -0.5 <= Units(x) * 0.003 - Units(FeeOf(x)) < 0.5
    ensures var out, min := OutputOf(x), MinOutputOf(OutputOf(x), bps);
            && 0.0 <= min <= out && Units(out) <= Units(x) + 0.5
            && (OnGrid(x) ==> out <= x)
            && -0.5 < BpsShare(Units(out), 10000 - bps) - Units(min) <= 0.5
  {
    var out := OutputOf(x);
    FeeInUnits(x);
    OutputInUnits(x);
    FeeAndOutputConserve(x);
    FeeAtMostInput(x);
    OutputOnGrid(x);
    SlippageInUnits(out, bps);
    SlippageAtMostOutput(out, bps);
    Complement(Units(out), bps);
  }

  lemma OutputOnGrid(x: real)
    requires x >= 0.0
    ensures OnGrid(OutputOf(x))
  {
    FeeAtMostInput(x);
    RoundIsNearest(x - FeeOf(x));
  }

  lemma Complement(u: real, bps: int)
    ensures BpsShare(u, 10000 - bps) == u - BpsShare(u, bps)
  {
    var r := bps as real / 10000.0;
    assert (10000 - bps) as real / 10000.0 == 1.0 - r;
    assert u * (1.0 - r) == u - u * r;
  }

  // A larger input never gives less output: for inputs of at most 18 digits.
  lemma OutputMonotone(x: real, y: real)
    requires 0.0 <= x <= y && OnGrid(x) && OnGrid(y)
    ensures OutputOf(x) <= OutputOf(y)
  {
    hide *;
    UnitsOrder(x, y);
    UnitsOrder(OutputOf(x), OutputOf(y));
    OnGridUnits(x);
    OnGridUnits(y);
    FeeInUnits(x);
    FeeInUnits(y);
    OutputInUnits(x);
    OutputInUnits(y);
    WholeOutputs(Units(x).Floor, Units(y).Floor, FeeUnits(x), FeeUnits(y), OutputUnits(x), OutputUnits(y));
  }

  lemma WholeOutputs(u: int, v: int, fu: int, fv: int, ou: int, ov: int)
    requires u <= v
    requires fu as real - 0.5 <= u as real * 0.003 < fu as real + 0.5
    requires fv as real - 0.5 <= v as real * 0.003 < fv as real + 0.5
    requires ou as real - 0.5 <= (u - fu) as real < ou as real + 0.5
    requires ov as real - 0.5 <= (v - fv) as real < ov as real + 0.5
    ensures ou <= ov
  {
    assert ou == u - fu && ov == v - fv;
    assert (fv - fu) as real < (v - u) as real * 0.003 + 1.0;
  }

  // With finer inputs it can drop, but by no more than one unit.
  lemma OutputNearlyMonotone(x: real, y: real)
    requires 0.0 <= x <= y
    ensures Units(OutputOf(y)) >= Units(OutputOf(x)) - 1.0
  {
    hide *;
    UnitsOrder(x, y);
    FeeInUnits(x);
    FeeInUnits(y);
    OutputInUnits(x);
    OutputInUnits(y);
    NearOutputs(Units(x), Units(y), FeeUnits(x), FeeUnits(y), OutputUnits(x), OutputUnits(y));
  }

  lemma NearOutputs(u: real, v: real, fu: int, fv: int, ou: int, ov: int)
    requires u <= v
    requires fu as real - 0.5 <= u * 0.003 < fu as real + 0.5
    requires fv as real - 0.5 <= v * 0.003 < fv as real + 0.5
    requires ou as real - 0.5 <= u - fu as real < ou as real + 0.5
    requires ov as real - 0.5 <= v - fv as real < ov as real + 0.5
    ensures ov >= ou - 1
  {
    assert fv as real - fu as real < (v - u) * 0.003 + 1.0;
    assert ov as real - ou as real > -2.0;
  }

  lemma FinerInputsCanDrop()
    ensures var x, y := FromUnits(1666) / 10.0, FromUnits(1667) / 10.0;
            0.0 <= x <= y && OutputOf(y) < OutputOf(x)
  {
    var x, y := FromUnits(1666) / 10.0, FromUnits(1667) / 10.0;
    assert Units(x) == 166.6 && Units(y) == 166.7;
    hide *;
    FeeInUnits(x);
    FeeInUnits(y);
    OutputInUnits(x);
    OutputInUnits(y);
    UnitsOrder(x, y);
    UnitsOrder(OutputOf(y), OutputOf(x));
  }

  // x has at most p digits after the point.
  predicate OnGridAt(x: real, p: nat) {
    Whole(ShiftUp(x, p))
  }

  lemma {:induction false} FinerGrid(x: real, p: nat, q: nat)
    requires OnGridAt(x, p) && p <= q
    ensures OnGridAt(x, q)
    decreases q
  {
    if p < q {
      FinerGrid(x, p, q - 1);
      var n := ShiftUp(x, q - 1).Floor;
      assert ShiftUp(x, q) == (10 * n) as real;
    }
  }

  lemma GridAt18(x: real)
    ensures OnGridAt(x, PLACES) <==> OnGrid(x)
  {
    ShiftUp18(x);
  }

  lemma NineteenDigits(x: real, n: int)
    requires x == FromUnits(n) / 10.0
    ensures OnGridAt(x, PLACES + 1)
  {
    ShiftUp18(x);
    assert ShiftUp(x, PLACES + 1) == 10.0 * Units(x);
    assert Units(x) * 10.0 == n as real;
  }

  ghost predicate MonotoneAt(p: nat) {
    forall x: real, y: real | 0.0 <= x <= y && OnGridAt(x, p) && OnGridAt(y, p) :: OutputOf(x) <= OutputOf(y)
  }

  // Exactly for which inputs the output is monotone: those of at most 18 digits after the
  // point. One digit more and it can drop.
  lemma MonotoneIff(p: nat)
    ensures MonotoneAt(p) <==> p <= PLACES
  {
    hide OnGridAt;
    hide OnGrid;
    hide OutputOf;
    hide FromUnits;
    if p <= PLACES {
      forall x: real, y: real | 0.0 <= x <= y && OnGridAt(x, p) && OnGridAt(y, p)
        ensures OutputOf(x) <= OutputOf(y)
      {
        FinerGrid(x, p, PLACES);
        FinerGrid(y, p, PLACES);
        GridAt18(x);
        GridAt18(y);
        OutputMonotone(x, y);
      }
    } else {
      var x, y := FromUnits(1666) / 10.0, FromUnits(1667) / 10.0;
      NineteenDigits(x, 1666);
      NineteenDigits(y, 1667);
      FinerGrid(x, PLACES + 1, p);
      FinerGrid(y, PLACES + 1, p);
      FinerInputsCanDrop();
    }
  }

  // More output never lowers the minimum, more slippage never raises it.
  lemma MinOutputMonotone(a: real, b: real, bps: int)
    requires 0.0 <= a <= b && OnGrid(a) && OnGrid(b) && 0 < bps <= MAX_SLIPPAGE_BPS
    ensures MinOutputOf(a, bps) <= MinOutputOf(b, bps)
  {
    hide *;
    UnitsOrder(a, b);
    OnGridUnits(a);
    OnGridUnits(b);
    SlippageInUnits(a, bps);
    SlippageInUnits(b, bps);
    ShareSlope(Units(a), Units(b), bps);
    UnitsOrder(MinOutputOf(a, bps), MinOutputOf(b, bps));
    var m, n := Units(a).Floor, Units(b).Floor;
    var gap := SlippageUnits(b, bps) - SlippageUnits(a, bps);
    assert gap as real < (n - m) as real * 0.5 + 1.0;
  }

  lemma ShareSlope(a: real, b: real, bps: int)
    requires a <= b && 0 < bps <= MAX_SLIPPAGE_BPS
    ensures 0.0 <= BpsShare(b, bps) - BpsShare(a, bps) <= (b - a) * 0.5
  {
    ScaledRange(b - a, bps);
    Distribute(b, a, bps as real / 10000.0);
  }

  lemma Distribute(a: real, b: real, c: real)
    ensures (a - b) * c == a * c - b * c
  {
  }

  lemma MinOutputAntitone(a: real, low: int, high: int)
    requires 0.0 <= a && 0 < low <= high <= MAX_SLIPPAGE_BPS
    ensures MinOutputOf(a, high) <= MinOutputOf(a, low)
  {
    ShareGrows(Units(a), low, high);
    hide *;
    UnitsOrder(a, a);
    SlippageInUnits(a, low);
    SlippageInUnits(a, high);
    NearestGrows(BpsShare(Units(a), low), BpsShare(Units(a), high), SlippageUnits(a, low), SlippageUnits(a, high));
    UnitsOrder(MinOutputOf(a, high), MinOutputOf(a, low));
  }

  lemma NearestGrows(u: real, v: real, m: int, n: int)
    requires u <= v
    requires m as real - 0.5 <= u < m as real + 0.5
    requires n as real - 0.5 <= v < n as real + 0.5
    ensures m <= n
  {
    assert m as real - n as real < 1.0;
  }

  lemma ShareGrows(u: real, low: int, high: int)
    requires u >= 0.0 && low <= high
    ensures BpsShare(u, low) <= BpsShare(u, high)
  {
    var rl, rh := low as real / 10000.0, high as real / 10000.0;
    Product(u, rh - rl);
    assert u * (rh - rl) == u * rh - u * rl;
  }

  // The whole quote is monotone, read from the strings it returns.
  lemma QuoteMonotone(a: string, b: string, low: int, high: int)
    requires Parse(a).Ok? && Parse(b).Ok? && Parse(a).value <= Parse(b).value
    requires OnGrid(Parse(a).value) && OnGrid(Parse(b).value)
    requires 0 < low <= high <= MAX_SLIPPAGE_BPS
    ensures var qa, qb := QuoteAmounts(a, high), QuoteAmounts(b, low);
            && qa.Ok? && qb.Ok?
            && Parse(qa.value.output).Ok? && Parse(qb.value.output).Ok?
            && Parse(qa.value.minOutput).Ok? && Parse(qb.value.minOutput).Ok?
            && Parse(qa.value.output).value <= Parse(qb.value.output).value
            && Parse(qa.value.minOutput).value <= Parse(qb.value.minOutput).value
  {
    hide Parse;
    hide QuoteAmounts;
    hide OutputOf;
    hide MinOutputOf;
    hide OnGrid;
    QuoteValues(a, high);
    QuoteValues(b, low);
    var x, y := Parse(a).value, Parse(b).value;
    OutputMonotone(x, y);
    OutputOnGrid(x);
    OutputOnGrid(y);
    MinOutputMonotone(OutputOf(x), OutputOf(y), high);
    MinOutputAntitone(OutputOf(y), low, high);
  }
}
