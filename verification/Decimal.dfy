// Plain decimal strings and the exact rationals they denote: the parts of Go's
// big.Rat (SetString on plain decimals, FloatString) that the services rely on.
module Decimal {
  import opened Results
  import opened Text

  predicate IsDigit(c: char) {
    '0' <= c <= '9'
  }

  predicate IsDigits(s: string) {
    forall i | 0 <= i < |s| :: IsDigit(s[i])
  }

  function DigitChar(d: nat): char
    requires d < 10
  {
    (d + '0' as int) as char
  }

  // The number a digit string denotes.
  function NatOf(s: string): nat
    requires IsDigits(s)
  {
    if s == [] then 0 else 10 * NatOf(s[..|s| - 1]) + (s[|s| - 1] as int - '0' as int)
  }

  // Decimal digits of n without leading zeros.
  function Digits(n: nat): (s: string)
    ensures s != [] && IsDigits(s)
    ensures NatOf(s) == n
    ensures s[0] == '0' ==> n == 0 && s == "0"
  {
    if n < 10 then
      assert NatOf([]) == 0;
      [DigitChar(n)]
    else
      var s := Digits(n / 10) + [DigitChar(n % 10)];
      assert s[..|s| - 1] == Digits(n / 10);
      s
  }

  // The last p decimal digits of n, zeros first, and the number without them.
  function LastDigits(n: nat, p: nat): (s: string)
    ensures |s| == p && IsDigits(s)
    decreases p
  {
    if p == 0 then [] else LastDigits(n / 10, p - 1) + [DigitChar(n % 10)]
  }

  function DropDigits(n: nat, p: nat): nat
    decreases p
  {
    if p == 0 then n else DropDigits(n / 10, p - 1)
  }

  lemma {:induction false} DigitsSplit(n: nat, p: nat)
    ensures IsDigits(Digits(DropDigits(n, p)) + LastDigits(n, p))
    ensures NatOf(Digits(DropDigits(n, p)) + LastDigits(n, p)) == n
    decreases p
  {
    var s := Digits(DropDigits(n, p)) + LastDigits(n, p);
    if p == 0 {
      assert s == Digits(n);
    } else {
      DigitsSplit(n / 10, p - 1);
      assert s[..|s| - 1] == Digits(DropDigits(n / 10, p - 1)) + LastDigits(n / 10, p - 1);
    }
  }

  // x / 10^k and x * 10^k, one decimal place at a time.
  function ShiftDown(x: real, k: nat): real
    decreases k
  {
    if k == 0 then x else ShiftDown(x / 10.0, k - 1)
  }

  function ShiftUp(x: real, k: nat): (r: real)
    ensures x >= 0.0 ==> r >= 0.0
    decreases k
  {
    if k == 0 then x else 10.0 * ShiftUp(x, k - 1)
  }

  lemma {:induction false} ShiftInverse(x: real, k: nat)
    ensures ShiftUp(ShiftDown(x, k), k) == x
    ensures ShiftDown(ShiftUp(x, k), k) == x
    decreases k
  {
    if k > 0 {
      ShiftInverse(x / 10.0, k - 1);
      ShiftInverse(x, k - 1);
    }
  }

  // The value of the digits `whole` before and `frac` after the point.
  function DecimalValue(whole: string, frac: string): real
    requires IsDigits(whole + frac)
  {
    ShiftDown(NatOf(whole + frac) as real, |frac|)
  }

  // Position of the first c in s, -1 when there is none.
  function IndexOf(s: string, c: char): (k: int)
    ensures -1 <= k < |s|
    ensures k == -1 <==> c !in s
    ensures k >= 0 ==> s[k] == c && c !in s[..k]
  {
    if s == [] then -1
    else if s[0] == c then 0
    else
      var rest := IndexOf(s[1..], c);
      assert s == [s[0]] + s[1..];
      if rest < 0 then -1 else
        assert s[..rest + 1] == [s[0]] + s[1..][..rest];
        rest + 1
  }

  // [digits][.[digits]] with at least one digit.
  function UnsignedValue(s: string): Option<real> {
    var dot := IndexOf(s, '.');
    if dot < 0 then
      if s != "" && IsDigits(s) then Some(NatOf(s) as real) else None
    else if |s| > 1 && IsDigits(s[..dot] + s[dot + 1..]) then
      Some(DecimalValue(s[..dot], s[dot + 1..]))
    else None
  }

  // big.Rat.SetString on plain decimals: an optional sign, then digits with an optional point.
  function SetString(s: string): Option<real> {
    if s != "" && s[0] == '-' then
      var m := UnsignedValue(s[1..]);
      if m.Some? then Some(-m.value) else None
    else if s != "" && s[0] == '+' then UnsignedValue(s[1..])
    else UnsignedValue(s)
  }

  // The nearest integer to x >= 0, halves up.
  function Nearest(x: real): (n: nat)
    requires x >= 0.0
    ensures n as real - 0.5 <= x < n as real + 0.5
  {
    (x + 0.5).Floor
  }

  function Abs(x: real): real {
    if x < 0.0 then -x else x
  }

  // n / 10^p with p digits after the point.
  function Fixed(n: nat, p: nat): string {
    Digits(DropDigits(n, p)) + if p == 0 then "" else "." + LastDigits(n, p)
  }

  // big.Rat.FloatString: p digits after the point, nearest, halves away from zero.
  function FloatString(v: real, p: nat): string {
    (if v < 0.0 then "-" else "") + Fixed(Nearest(ShiftUp(Abs(v), p)), p)
  }

  lemma DigitsValue(q: nat)
    ensures SetString(Digits(q)) == Some(q as real)
  {
    var s := Digits(q);
    assert IsDigit(s[0]) && forall i | 0 <= i < |s| :: IsDigit(s[i]);
  }

  lemma PointSplits(whole: string, frac: string)
    requires IsDigits(whole) && IsDigits(frac) && |whole| > 0
    ensures IsDigits(whole + frac)
    ensures UnsignedValue(whole + ['.'] + frac) == Some(DecimalValue(whole, frac))
    ensures SetString(whole + ['.'] + frac) == Some(DecimalValue(whole, frac))
  {
    var s := whole + ['.'] + frac;
    var dot := IndexOf(s, '.');
    assert s[|whole|] == '.';
    SplitAtFirst(s[..dot], s[dot + 1..], whole, frac, '.');
    assert s[0] == whole[0];
  }

  lemma DropZero(whole: string, frac: string)
    requires IsDigits(whole + frac)
    ensures IsDigits(whole + (frac + "0"))
    ensures DecimalValue(whole, frac + "0") == DecimalValue(whole, frac)
  {
    var all := whole + (frac + "0");
    assert all[..|all| - 1] == whole + frac;
    assert NatOf(all) as real / 10.0 == NatOf(whole + frac) as real;
  }

  // Dropping zeros after the last nonzero fractional digit, then a bare point.
  function TrimFraction(s: string): string {
    TrimRight(TrimRight(s, {'0'}), {'.'})
  }

  lemma {:induction false} TrimZeros(whole: string, frac: string)
    requires IsDigits(whole) && IsDigits(frac)
    ensures TrimRight(whole + ['.'] + frac, {'0'}) == whole + ['.'] + TrimRight(frac, {'0'})
    ensures IsDigits(TrimRight(frac, {'0'}))
    ensures IsDigits(whole + frac) && IsDigits(whole + TrimRight(frac, {'0'}))
    ensures DecimalValue(whole, TrimRight(frac, {'0'})) == DecimalValue(whole, frac)
  {
    var s := whole + ['.'] + frac;
    if frac != [] && frac[|frac| - 1] == '0' {
      var frac' := frac[..|frac| - 1];
      TrimZeros(whole, frac');
      assert s[..|s| - 1] == whole + ['.'] + frac';
      DropZero(whole, frac');
      assert frac == frac' + "0";
    } else {
      assert s[|s| - 1] == if frac == [] then '.' else frac[|frac| - 1];
    }
  }

  // A number printed without trailing fractional zeros and without a bare point.
  predicate Canonical(s: string) {
    var dot := IndexOf(s, '.');
    if dot < 0 then
      s != [] && IsDigits(s) && (s[0] == '0' ==> s == "0")
    else
      dot > 0 && IsDigits(s[..dot]) && (s[0] == '0' ==> dot == 1) &&
      dot + 1 < |s| && IsDigits(s[dot + 1..]) && s[|s| - 1] != '0'
  }

  // Trimming a printed number keeps its value and gives the canonical form.
  lemma TrimFractionValue(n: nat, p: nat)
    requires p > 0
    ensures SetString(TrimFraction(Fixed(n, p))) == Some(ShiftDown(n as real, p))
    ensures Canonical(TrimFraction(Fixed(n, p)))
  {
    DigitsSplit(n, p);
    assert Fixed(n, p) == Digits(DropDigits(n, p)) + ['.'] + LastDigits(n, p);
    TrimPoint(Digits(DropDigits(n, p)), LastDigits(n, p));
  }

  lemma TrimPoint(whole: string, frac: string)
    requires IsDigits(whole) && IsDigits(frac) && whole != [] && (whole[0] == '0' ==> whole == "0")
    ensures IsDigits(whole + frac)
    ensures SetString(TrimFraction(whole + ['.'] + frac)) == Some(DecimalValue(whole, frac))
    ensures Canonical(TrimFraction(whole + ['.'] + frac))
  {
    TrimZeros(whole, frac);
    var frac' := TrimRight(frac, {'0'});
    if frac' == [] {
      BarePoint(whole);
      assert whole + frac' == whole;
    } else {
      assert frac'[|frac'| - 1] != '0';
      PointKept(whole, frac');
    }
  }

  lemma BarePoint(whole: string)
    requires IsDigits(whole) && whole != [] && (whole[0] == '0' ==> whole == "0")
    ensures TrimRight(whole + ['.'] + [], {'.'}) == whole
    ensures SetString(whole) == Some(NatOf(whole) as real)
    ensures Canonical(whole)
  {
    var s := whole + ['.'] + [];
    assert s[..|s| - 1] == whole;
    assert IsDigit(whole[0]) && IsDigit(whole[|whole| - 1]);
    assert forall i | 0 <= i < |whole| :: IsDigit(whole[i]);
    assert '.' !in whole;
  }

  lemma DigitsNoPoint(s: string)
    requires IsDigits(s)
    ensures '.' !in s
  {
    assert forall i | 0 <= i < |s| :: IsDigit(s[i]);
  }

  lemma PointAt(whole: string, frac: string)
    requires '.' !in whole && '.' !in frac
    ensures var s := whole + ['.'] + frac;
            IndexOf(s, '.') == |whole| && s[..|whole|] == whole && s[|whole| + 1..] == frac
  {
    var s := whole + ['.'] + frac;
    var dot := IndexOf(s, '.');
    assert s[|whole|] == '.';
    assert dot >= 0 && s == s[..dot] + ['.'] + s[dot + 1..];
    hide IndexOf;
    SplitAtFirst(s[..dot], s[dot + 1..], whole, frac, '.');
  }

  lemma PointCanonical(whole: string, frac: string)
    requires IsDigits(whole) && whole != [] && (whole[0] == '0' ==> whole == "0")
    requires IsDigits(frac) && frac != [] && frac[|frac| - 1] != '0'
    ensures Canonical(whole + ['.'] + frac)
  {
    var s := whole + ['.'] + frac;
    DigitsNoPoint(whole);
    DigitsNoPoint(frac);
    PointAt(whole, frac);
    assert s[0] == whole[0] && s[|s| - 1] == frac[|frac| - 1];
    hide IsDigits;
    hide IndexOf;
  }

  lemma PointKept(whole: string, frac: string)
    requires IsDigits(whole) && whole != [] && (whole[0] == '0' ==> whole == "0")
    requires IsDigits(frac) && frac != [] && frac[|frac| - 1] != '0'
    ensures var s := whole + ['.'] + frac; TrimRight(s, {'.'}) == s && Canonical(s)
    ensures IsDigits(whole + frac)
    ensures SetString(whole + ['.'] + frac) == Some(DecimalValue(whole, frac))
  {
    var s := whole + ['.'] + frac;
    PointSplits(whole, frac);
    PointCanonical(whole, frac);
    DigitsNoPoint(frac);
    assert s[|s| - 1] == frac[|frac| - 1] && frac[|frac| - 1] in frac;
    hide SetString;
    hide DecimalValue;
    hide Canonical;
    hide IsDigits;
  }

  lemma {:induction false} NatOfZero(s: string)
    requires IsDigits(s) && NatOf(s) == 0
    ensures forall i | 0 <= i < |s| :: s[i] == '0'
  {
    if s != [] {
      NatOfZero(s[..|s| - 1]);
      assert forall i | 0 <= i < |s| - 1 :: s[i] == s[..|s| - 1][i];
      assert IsDigit(s[|s| - 1]);
    }
  }

  lemma {:induction false} ShiftZero(k: nat)
    ensures ShiftUp(0.0, k) == 0.0
  {
    if k > 0 {
      ShiftZero(k - 1);
    }
  }

  // "0" is the only canonical string that denotes zero.
  lemma CanonicalZero(s: string)
    requires Canonical(s)
    ensures SetString(s) == Some(0.0) <==> s == "0"
  {
    var dot := IndexOf(s, '.');
    if dot < 0 {
      assert IsDigit(s[0]);
      if SetString(s) == Some(0.0) {
        NatOfZero(s);
      }
      assert NatOf("0") == 10 * NatOf([]) + 0;
    } else {
      var whole, frac := s[..dot], s[dot + 1..];
      assert s == whole + ['.'] + frac;
      PointSplits(whole, frac);
      assert (whole + frac)[|whole + frac| - 1] == s[|s| - 1] != '0';
      if NatOf(whole + frac) == 0 {
        NatOfZero(whole + frac);
        assert false;
      }
      ShiftInverse(NatOf(whole + frac) as real, |frac|);
      ShiftZero(|frac|);
    }
  }

  // Digits after the point.
  function FractionDigits(s: string): nat {
    var dot := IndexOf(s, '.');
    if dot < 0 then 0 else |s| - dot - 1
  }

  lemma DigitsStep(n: nat, c: char)
    requires n > 0 && IsDigit(c)
    ensures Digits(10 * n + (c as int - '0' as int)) == Digits(n) + [c]
  {
    var m := 10 * n + (c as int - '0' as int);
    assert m / 10 == n && DigitChar(m % 10) == c;
  }

  lemma {:induction false} DigitsOfNatOf(s: string)
    requires IsDigits(s) && s != [] && (s[0] == '0' ==> s == "0")
    ensures Digits(NatOf(s)) == s
  {
    assert IsDigit(s[|s| - 1]);
    if |s| == 1 {
      assert NatOf(s[..0]) == 0;
    } else {
      var s' := s[..|s| - 1];
      assert s'[0] == s[0];
      DigitsOfNatOf(s');
      if NatOf(s') == 0 {
        NatOfZero(s');
        assert false;
      }
      DigitsStep(NatOf(s'), s[|s| - 1]);
      assert s == s' + [s[|s| - 1]];
    }
  }

  lemma {:induction false} SplitOfNatOf(whole: string, frac: string)
    requires IsDigits(whole) && IsDigits(frac)
    ensures IsDigits(whole + frac)
    ensures DropDigits(NatOf(whole + frac), |frac|) == NatOf(whole)
    ensures LastDigits(NatOf(whole + frac), |frac|) == frac
  {
    if frac == [] {
      assert whole + frac == whole;
    } else {
      var frac' := frac[..|frac| - 1];
      SplitOfNatOf(whole, frac');
      assert (whole + frac)[..|whole + frac| - 1] == whole + frac';
      assert IsDigit(frac[|frac| - 1]);
      assert frac == frac' + [frac[|frac| - 1]];
    }
  }

  function Zeros(k: nat): (z: string)
    ensures |z| == k && IsDigits(z)
  {
    if k == 0 then [] else Zeros(k - 1) + "0"
  }

  lemma {:induction false} ZerosTrim(frac: string, k: nat)
    requires frac == [] || frac[|frac| - 1] != '0'
    ensures TrimRight(frac + Zeros(k), {'0'}) == frac
  {
    var g := frac + Zeros(k);
    if k == 0 {
      assert g == frac;
    } else {
      assert g[..|g| - 1] == frac + Zeros(k - 1);
      ZerosTrim(frac, k - 1);
    }
  }

  lemma ZerosDrop(whole: string, frac: string, k: nat)
    requires IsDigits(whole) && IsDigits(frac) && (frac == [] || frac[|frac| - 1] != '0')
    ensures IsDigits(whole + frac) && IsDigits(whole + (frac + Zeros(k)))
    ensures DecimalValue(whole, frac + Zeros(k)) == DecimalValue(whole, frac)
    ensures TrimRight(frac + Zeros(k), {'0'}) == frac
  {
    ZerosTrim(frac, k);
    TrimZeros(whole, frac + Zeros(k));
  }

  lemma PaddedUnits(whole: string, frac: string, p: nat)
    requires IsDigits(whole) && IsDigits(frac) && (frac == [] || frac[|frac| - 1] != '0')
    requires |frac| <= p
    ensures IsDigits(whole + frac) && IsDigits(whole + (frac + Zeros(p - |frac|)))
    ensures ShiftUp(DecimalValue(whole, frac), p) == NatOf(whole + (frac + Zeros(p - |frac|))) as real
  {
    ZerosDrop(whole, frac, p - |frac|);
    ShiftInverse(NatOf(whole + (frac + Zeros(p - |frac|))) as real, p);
  }

  lemma NearestNat(n: nat)
    ensures Nearest(n as real) == n
  {
  }

  lemma FixedDecimal(whole: string, frac: string)
    requires IsDigits(whole) && whole != [] && (whole[0] == '0' ==> whole == "0")
    requires IsDigits(frac) && frac != []
    ensures IsDigits(whole + frac)
    ensures Fixed(NatOf(whole + frac), |frac|) == whole + ['.'] + frac
  {
    SplitOfNatOf(whole, frac);
    DigitsOfNatOf(whole);
    assert whole + ['.'] + frac == whole + ("." + frac);
  }

  // Printing a decimal with p >= |frac| digits pads it with zeros.
  lemma FixedPads(whole: string, frac: string, p: nat)
    requires IsDigits(whole) && whole != [] && (whole[0] == '0' ==> whole == "0")
    requires IsDigits(frac) && (frac == [] || frac[|frac| - 1] != '0')
    requires |frac| <= p && p > 0
    ensures IsDigits(whole + frac)
    ensures var u := ShiftUp(DecimalValue(whole, frac), p);
            u >= 0.0 && Fixed(Nearest(u), p) == whole + ['.'] + (frac + Zeros(p - |frac|))
  {
    PaddedUnits(whole, frac, p);
    FixedDecimal(whole, frac + Zeros(p - |frac|));
    NearestNat(NatOf(whole + (frac + Zeros(p - |frac|))));
  }

  lemma PointPrint(whole: string, frac: string, p: nat)
    requires IsDigits(whole) && whole != [] && (whole[0] == '0' ==> whole == "0")
    requires IsDigits(frac) && (frac == [] || frac[|frac| - 1] != '0')
    requires |frac| <= p && p > 0
    ensures IsDigits(whole + frac)
    ensures var u := ShiftUp(DecimalValue(whole, frac), p);
            u >= 0.0 && TrimFraction(Fixed(Nearest(u), p)) == TrimRight(whole + ['.'] + frac, {'.'})
  {
    var g := frac + Zeros(p - |frac|);
    assert TrimRight(whole + ['.'] + g, {'0'}) == whole + ['.'] + frac by {
      TrimZeros(whole, g);
      ZerosDrop(whole, frac, p - |frac|);
    }
    FixedPads(whole, frac, p);
  }

  // A canonical string is what its own value prints as.
  lemma CanonicalPrint(s: string, p: nat)
    requires Canonical(s) && FractionDigits(s) <= p && p > 0
    ensures SetString(s).Some?
    ensures var u := ShiftUp(SetString(s).value, p); u >= 0.0 && TrimFraction(Fixed(Nearest(u), p)) == s
  {
    var dot := IndexOf(s, '.');
    if dot < 0 {
      PointPrint(s, [], p);
      BarePoint(s);
      assert s + [] == s;
    } else {
      var whole, frac := s[..dot], s[dot + 1..];
      assert s == whole + ['.'] + frac;
      assert whole[0] == s[0] && frac[|frac| - 1] == s[|s| - 1];
      PointPrint(whole, frac, p);
      PointKept(whole, frac);
    }
  }

  // What is left after trimming has at most the digits printed.
  lemma TrimFractionShort(n: nat, p: nat)
    requires p > 0
    ensures FractionDigits(TrimFraction(Fixed(n, p))) <= p
  {
    var whole, frac := Digits(DropDigits(n, p)), LastDigits(n, p);
    assert Fixed(n, p) == whole + ['.'] + frac;
    var s := TrimFraction(whole + ['.'] + frac);
    assert s <= whole + ['.'] + frac;
    if '.' in s {
      var dot := IndexOf(s, '.');
      assert (whole + ['.'] + frac)[dot] == '.';
      assert forall i | 0 <= i < |whole| :: IsDigit((whole + ['.'] + frac)[i]);
    }
  }

  lemma {:induction false} ZerosValue(whole: string, frac: string, k: nat)
    requires IsDigits(whole + frac)
    ensures IsDigits(whole + (frac + Zeros(k)))
    ensures DecimalValue(whole, frac + Zeros(k)) == DecimalValue(whole, frac)
  {
    if k == 0 {
      assert frac + Zeros(k) == frac;
    } else {
      ZerosValue(whole, frac, k - 1);
      DropZero(whole, frac + Zeros(k - 1));
      assert frac + Zeros(k) == frac + Zeros(k - 1) + "0";
    }
  }

  predicate Whole(x: real) {
    x.Floor as real == x
  }

  lemma {:induction false} ShiftUpDifference(a: real, b: real, k: nat)
    ensures ShiftUp(a - b, k) == ShiftUp(a, k) - ShiftUp(b, k)
    decreases k
  {
    if k > 0 {
      ShiftUpDifference(a, b, k - 1);
    }
  }

  lemma WholeDifference(a: real, b: real)
    requires Whole(a) && Whole(b)
    ensures Whole(a - b)
  {
    assert a - b == (a.Floor - b.Floor) as real;
  }

  // A decimal string is a whole number of units of its last place, or of any finer place.
  lemma UnsignedWhole(s: string, p: nat)
    requires UnsignedValue(s).Some? && FractionDigits(s) <= p
    ensures UnsignedValue(s).value >= 0.0 && Whole(ShiftUp(UnsignedValue(s).value, p))
  {
    var dot := IndexOf(s, '.');
    var whole := if dot < 0 then s else s[..dot];
    var frac := if dot < 0 then [] else s[dot + 1..];
    assert dot < 0 ==> whole + frac == s;
    ZerosValue(whole, frac, p - |frac|);
    var n := NatOf(whole + (frac + Zeros(p - |frac|)));
    ShiftInverse(n as real, p);
    ShiftDownNonNegative(NatOf(whole + frac) as real, |frac|);
  }

  lemma {:induction false} ShiftDownNonNegative(x: real, k: nat)
    requires x >= 0.0
    ensures ShiftDown(x, k) >= 0.0
    decreases k
  {
    if k > 0 {
      ShiftDownNonNegative(x / 10.0, k - 1);
    }
  }

  lemma SetStringWhole(s: string, p: nat)
    requires SetString(s).Some? && FractionDigits(s) <= p
    ensures Whole(ShiftUp(SetString(s).value, p))
  {
    if s != "" && (s[0] == '-' || s[0] == '+') {
      assert FractionDigits(s[1..]) == FractionDigits(s);
      UnsignedWhole(s[1..], p);
      var v := UnsignedValue(s[1..]).value;
      ShiftUpDifference(0.0, v, p);
      ShiftZero(p);
      assert Whole(0.0);
      WholeDifference(0.0, ShiftUp(v, p));
    } else {
      UnsignedWhole(s, p);
    }
  }
}
