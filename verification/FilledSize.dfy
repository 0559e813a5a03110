// The filled size of an exchange order: original size minus remaining size.
module FilledSize {
  import opened Results
  import opened Text
  import opened Decimal

  function MaxInt(a: int, b: int): int {
    if a > b then a else b
  }

  // The loop over the operands that finds how many digits the result needs.
  method MaxFractionDigits(values: seq<string>) returns (maxDigits: nat)
    ensures forall i | 0 <= i < |values| :: FractionDigits(values[i]) <= maxDigits
    ensures maxDigits == 0 || exists i | 0 <= i < |values| :: FractionDigits(values[i]) == maxDigits
    ensures |values| == 2 ==> maxDigits == DigitsNeeded(values[0], values[1])
  {
    maxDigits := 0;
    for k := 0 to |values|
      invariant forall i | 0 <= i < k :: FractionDigits(values[i]) <= maxDigits
      invariant maxDigits == 0 || exists i | 0 <= i < k :: FractionDigits(values[i]) == maxDigits
    {
      var idx := IndexOf(values[k], '.');
      if idx >= 0 {
        maxDigits := MaxInt(maxDigits, |values[k]| - idx - 1);
      }
    }
  }

  function DigitsNeeded(a: string, b: string): nat {
    MaxInt(FractionDigits(a), FractionDigits(b))
  }

  function DecimalDifference(original: string, remaining: string): string {
    var o, r := TrimSpace(original), TrimSpace(remaining);
    if o == "" || r == "" then ""
    else if SetString(o).None? || SetString(r).None? then ""
    else if SetString(o).value - SetString(r).value < 0.0 then ""
    else PrintDifference(SetString(o).value - SetString(r).value, DigitsNeeded(o, r))
  }

  function PrintDifference(diff: real, digits: nat): string {
    var out := FloatString(diff, digits);
    if '.' in out then TrimFraction(out) else out
  }

  // "" exactly when an operand is not a decimal or the difference is negative; otherwise
  // the result denotes original - remaining with nothing lost to rounding or trimming.
  lemma DifferenceExact(original: string, remaining: string)
    ensures var o, r := SetString(TrimSpace(original)), SetString(TrimSpace(remaining));
            var d := DecimalDifference(original, remaining);
            && (d == "" <==> o.None? || r.None? || o.value < r.value)
            && (d != "" ==> SetString(d) == Some(o.value - r.value) && Canonical(d))
  {
    EmptyIsNotDecimal();
    hide SetString;
    hide TrimSpace;
    hide PrintDifference;
    hide Canonical;
    hide DigitsNeeded;
    var o, r := TrimSpace(original), TrimSpace(remaining);
    if SetString(o).Some? && SetString(r).Some? && SetString(o).value >= SetString(r).value {
      DifferenceValue(o, r);
    }
  }

  lemma EmptyIsNotDecimal()
    ensures SetString("").None?
  {
  }

  lemma DifferenceValue(o: string, r: string)
    requires SetString(o).Some? && SetString(r).Some? && SetString(o).value >= SetString(r).value
    ensures var diff := SetString(o).value - SetString(r).value;
            var d := PrintDifference(diff, DigitsNeeded(o, r));
            SetString(d) == Some(diff) && Canonical(d)
  {
    var p := DigitsNeeded(o, r);
    var diff := SetString(o).value - SetString(r).value;
    SetStringWhole(o, p);
    SetStringWhole(r, p);
    ShiftUpDifference(SetString(o).value, SetString(r).value, p);
    WholeDifference(ShiftUp(SetString(o).value, p), ShiftUp(SetString(r).value, p));
    PrintWhole(diff, p);
  }

  lemma PrintWhole(diff: real, p: nat)
    requires diff >= 0.0 && Whole(ShiftUp(diff, p))
    ensures var d := PrintDifference(diff, p);
            SetString(d) == Some(diff) && Canonical(d)
  {
    var n := Nearest(ShiftUp(diff, p));
    NearestWhole(ShiftUp(diff, p));
    ShiftInverse(diff, p);
    assert Abs(diff) == diff && "" + Fixed(n, p) == Fixed(n, p);
    assert FloatString(diff, p) == Fixed(n, p);
    hide *;
    if p == 0 {
      WholePrint(n);
    } else {
      PointPrint(n, p);
    }
  }

  lemma NearestWhole(x: real)
    requires x >= 0.0 && Whole(x)
    ensures Nearest(x) as real == x
  {
    NearestNat(x.Floor);
  }

  lemma WholePrint(n: nat)
    ensures var s := Fixed(n, 0);
            '.' !in s && SetString(s) == Some(ShiftDown(n as real, 0)) && Canonical(s)
  {
    var s := Digits(n);
    assert Fixed(n, 0) == s;
    assert forall i | 0 <= i < |s| :: IsDigit(s[i]);
    DigitsValue(n);
  }

  lemma PointPrint(n: nat, p: nat)
    requires p > 0
    ensures var s := Fixed(n, p);
            '.' in s && SetString(TrimFraction(s)) == Some(ShiftDown(n as real, p)) && Canonical(TrimFraction(s))
  {
    TrimFractionValue(n, p);
    assert Fixed(n, p)[|Digits(DropDigits(n, p))|] == '.';
  }
}
