// Amounts as strings: parse, exact arithmetic, print at 18 digits.
module Money {
  import opened Results
  import opened Text
  import opened Decimal

  datatype Error = AmountRequired | InvalidAmount | NegativeAmount | NegativeResult | SlippageTooHigh

  const PLACES: nat := 18

  // Amounts counted in units of 10^-18, and back.
  function Units(v: real): real {
    v * 1000000000000000000.0
  }

  function FromUnits(n: int): real {
    n as real / 1000000000000000000.0
  }

  function Parse(amount: string): (r: Result<real, Error>)
    ensures r.Ok? ==> r.value >= 0.0
  {
    var a := TrimSpace(amount);
    if a == "" then Err(AmountRequired)
    else
      match SetString(a)
      case None => Err(InvalidAmount)
      case Some(v) => if v < 0.0 then Err(NegativeAmount) else Ok(v)
  }

  function Format(v: real): string {
    FormatAt(v, PLACES)
  }

  function FormatAt(v: real, places: nat): string {
    Tidy(FloatString(v, places))
  }

  function Tidy(printed: string): string {
    var s := TrimFraction(printed);
    if s == "" || s == "-0" then "0" else s
  }

  // bps ten-thousandths of v.
  function BpsShare(v: real, bps: int): real {
    v * (bps as real / 10000.0)
  }

  function MultiplyBps(amount: string, bps: int): Result<string, Error> {
    var v :- Parse(amount);
    Ok(Format(BpsShare(v, bps)))
  }

  function Sub(a: string, b: string): Result<string, Error> {
    var left :- Parse(a);
    var right :- Parse(b);
    if left - right < 0.0 then Err(NegativeResult) else Ok(Format(left - right))
  }

  // The multiple of 10^-18 nearest to v, halves away from zero.
  function Round18(v: real): (r: real)
    requires v >= 0.0
    ensures r >= 0.0
  {
    FromUnits(Nearest(Units(v)))
  }

  // v has at most 18 digits after the point.
  predicate OnGrid(v: real) {
    Whole(Units(v))
  }

  lemma ShiftUpSix(v: real, k: nat)
    ensures ShiftUp(v, k + 6) == 1000000.0 * ShiftUp(v, k)
  {
    assert ShiftUp(v, k + 2) == 100.0 * ShiftUp(v, k);
    assert ShiftUp(v, k + 4) == 100.0 * ShiftUp(v, k + 2);
    assert ShiftUp(v, k + 6) == 100.0 * ShiftUp(v, k + 4);
  }

  lemma ShiftUp18(v: real)
    ensures ShiftUp(v, PLACES) == Units(v)
  {
    ShiftUpSix(v, 0);
    ShiftUpSix(v, 6);
    ShiftUpSix(v, 12);
  }

  lemma RoundTo18(v: real)
    requires v >= 0.0
    ensures ShiftDown(Nearest(ShiftUp(v, PLACES)) as real, PLACES) == Round18(v)
  {
    ShiftUp18(v);
    var n := Nearest(Units(v)) as real;
    ShiftInverse(n, PLACES);
    ShiftUp18(ShiftDown(n, PLACES));
  }

  lemma UnitsOfRounded(v: real)
    requires v >= 0.0
    ensures Units(Round18(v)) == Nearest(Units(v)) as real
  {
  }

  lemma RoundIsNearest(v: real)
    requires v >= 0.0
    ensures OnGrid(Round18(v))
    ensures -0.5 <= Units(v) - Units(Round18(v)) < 0.5
    ensures OnGrid(v) ==> Round18(v) == v
  {
    UnitsOfRounded(v);
    var x, n := Units(v), Nearest(Units(v));
    assert (n as real).Floor == n;
    if x.Floor as real == x {
      assert x.Floor == n;
      assert v == FromUnits(n);
    }
  }

  lemma SignKept(s: string)
    requires Canonical(TrimFraction(s))
    ensures TrimFraction("-" + s) == "-" + TrimFraction(s)
  {
    var t := TrimRight(s, {'0'});
    assert TrimRight(t, {'.'}) != [];
    TrimRightPrefix("-", s, {'0'});
    TrimRightPrefix("-", t, {'.'});
  }

  lemma DigitNotSpace(c: char)
    requires IsDigit(c) || c == '-'
    ensures c !in WHITESPACE
  {
  }

  lemma DigitsTrimmed(s: string)
    requires s != [] && (IsDigit(s[0]) || s[0] == '-') && IsDigit(s[|s| - 1])
    ensures TrimSpace(s) == s
  {
    DigitNotSpace(s[0]);
    DigitNotSpace(s[|s| - 1]);
    TrimmedIffFixed(s, WHITESPACE);
  }

  // Canonical strings have no spaces and no sign to strip.
  lemma CanonicalParse(s: string)
    requires Canonical(s)
    ensures s != [] && IsDigit(s[0]) && TrimSpace(s) == s && TrimSpace("-" + s) == "-" + s
  {
    var dot := IndexOf(s, '.');
    assert IsDigit(s[0]) by {
      if dot >= 0 {
        assert s[..dot][0] == s[0];
      }
    }
    assert IsDigit(s[|s| - 1]) by {
      if dot >= 0 {
        assert s[dot + 1..][|s| - dot - 2] == s[|s| - 1];
      }
    }
    DigitsTrimmed(s);
    DigitsTrimmed("-" + s);
  }

  // The canonical print of |v|.
  function Magnitude(v: real, places: nat): string {
    TrimFraction(Fixed(Nearest(ShiftUp(Abs(v), places)), places))
  }

  lemma MagnitudeValue(v: real, places: nat)
    requires places > 0
    ensures Canonical(Magnitude(v, places)) && FractionDigits(Magnitude(v, places)) <= places
    ensures SetString(Magnitude(v, places)) == Some(ShiftDown(Nearest(ShiftUp(Abs(v), places)) as real, places))
  {
    var n := Nearest(ShiftUp(Abs(v), places));
    TrimFractionValue(n, places);
    TrimFractionShort(n, places);
  }

  lemma TidySigned(digits: string)
    requires Canonical(TrimFraction(digits))
    ensures Tidy(digits) == TrimFraction(digits)
    ensures Tidy("-" + digits) == if TrimFraction(digits) == "0" then "0" else "-" + TrimFraction(digits)
  {
    var s := TrimFraction(digits);
    CanonicalParse(s);
    SignKept(digits);
    assert ("-" + s)[1..] == s && "-0"[1..] == "0";
  }

  lemma FormatMagnitude(v: real, places: nat)
    requires places > 0
    ensures FormatAt(v, places) ==
            if v >= 0.0 || Magnitude(v, places) == "0" then Magnitude(v, places) else "-" + Magnitude(v, places)
  {
    var digits := Fixed(Nearest(ShiftUp(Abs(v), places)), places);
    MagnitudeValue(v, places);
    TidySigned(digits);
    assert "" + digits == digits;
  }

  lemma Format18(v: real)
    ensures var m := Magnitude(v, PLACES);
            && Canonical(m) && FractionDigits(m) <= PLACES && SetString(m) == Some(Round18(Abs(v)))
            && Format(v) == if v >= 0.0 || m == "0" then m else "-" + m
  {
    FormatMagnitude(v, PLACES);
    MagnitudeValue(v, PLACES);
    RoundTo18(Abs(v));
  }

  // Printing and parsing back gives the nearest multiple of 10^-18; the print is canonical.
  lemma ParseFormat(v: real)
    requires v >= 0.0
    ensures Parse(Format(v)) == Ok(Round18(v))
    ensures Canonical(Format(v))
  {
    Format18(v);
    RoundIsNearest(v);
    CanonicalParse(Format(v));
  }

  lemma SetStringNegated(s: string)
    requires s != [] && IsDigit(s[0]) && SetString(s).Some?
    ensures SetString("-" + s) == Some(-SetString(s).value)
  {
    hide UnsignedValue;
    assert ("-" + s)[1..] == s;
  }

  lemma ParseNegated(s: string)
    requires Canonical(s) && SetString(s).Some? && SetString(s).value > 0.0
    ensures Parse("-" + s) == Err(NegativeAmount)
  {
    CanonicalParse(s);
    SetStringNegated(s);
    hide SetString;
    hide TrimSpace;
    hide Canonical;
  }

  lemma ParseZero()
    ensures Parse("0") == Ok(0.0)
  {
    DigitsTrimmed("0");
  }

  lemma AbsNegative(v: real)
    requires v < 0.0
    ensures Abs(v) == -v
  {
  }

  // A negative rational prints as a string that Parse rejects, unless it rounds to "0".
  lemma ParseFormatNegative(v: real)
    requires v < 0.0
    ensures Parse(Format(v)) == if Round18(-v) == 0.0 then Ok(0.0) else Err(NegativeAmount)
  {
    hide *;
    AbsNegative(v);
    Format18(v);
    var s := Magnitude(v, PLACES);
    CanonicalZero(s);
    if s == "0" {
      ParseZero();
    } else {
      ParseNegated(s);
    }
  }

  // The fixed points of "parse, then print" are exactly the canonical strings of
  // at most 18 fractional digits.
  lemma FormatParse(s: string)
    requires Parse(s).Ok?
    ensures Format(Parse(s).value) == s <==> Canonical(s) && FractionDigits(s) <= PLACES
  {
    var v := Parse(s).value;
    Format18(v);
    if Canonical(s) && FractionDigits(s) <= PLACES {
      CanonicalParse(s);
      CanonicalPrint(s, PLACES);
    }
  }

  // Printing is stable: what was printed prints as itself.
  lemma FormatStable(v: real)
    requires v >= 0.0
    ensures Parse(Format(v)).Ok? && Format(Parse(Format(v)).value) == Format(v)
  {
    ParseFormat(v);
    Format18(v);
    FormatParse(Format(v));
  }

  // A share fails only where the amount does not parse; printed, a negative one is an
  // amount that Parse rejects, unless it rounds to "0".
  lemma MultiplyBpsValue(amount: string, bps: int)
    ensures match Parse(amount)
            case Err(e) => MultiplyBps(amount, bps) == Err(e)
            case Ok(v) =>
              && MultiplyBps(amount, bps).Ok?
              && var share, printed := BpsShare(v, bps), Parse(MultiplyBps(amount, bps).value);
                 if share >= 0.0 then printed == Ok(Round18(share))
                 else printed == if Round18(-share) == 0.0 then Ok(0.0) else Err(NegativeAmount)
  {
    hide Parse;
    hide BpsShare;
    hide FormatAt;
    if Parse(amount).Ok? {
      var share := BpsShare(Parse(amount).value, bps);
      if share >= 0.0 {
        ParseFormat(share);
      } else {
        ParseFormatNegative(share);
      }
    }
  }

  // Subtraction fails exactly on an amount that does not parse or when the second is larger.
  lemma SubValue(a: string, b: string)
    ensures if Parse(a).Err? then Sub(a, b) == Err(Parse(a).error)
            else if Parse(b).Err? then Sub(a, b) == Err(Parse(b).error)
            else
              var d := Parse(a).value - Parse(b).value;
              if d < 0.0 then Sub(a, b) == Err(NegativeResult)
              else Sub(a, b).Ok? && Parse(Sub(a, b).value) == Ok(Round18(d))
  {
    hide Parse;
    hide FormatAt;
    if Parse(a).Ok? && Parse(b).Ok? && Parse(a).value - Parse(b).value >= 0.0 {
      ParseFormat(Parse(a).value - Parse(b).value);
    }
  }

  // An amount written with at most 18 fractional digits is on the grid.
  lemma ShortAmountOnGrid(amount: string)
    requires Parse(amount).Ok? && FractionDigits(TrimSpace(amount)) <= PLACES
    ensures OnGrid(Parse(amount).value)
  {
    SetStringWhole(TrimSpace(amount), PLACES);
    ShiftUp18(Parse(amount).value);
  }
}
