// Go's string helpers as the services use them, on sequences of characters.
module Text {

  // The Unicode White_Space characters that strings.TrimSpace removes.
  const WHITESPACE: set<char> := {
    ' ', '\t', '\n', '\r', '\U{000B}', '\U{000C}', '\U{0085}', '\U{00A0}', '\U{1680}',
    '\U{2000}', '\U{2001}', '\U{2002}', '\U{2003}', '\U{2004}', '\U{2005}', '\U{2006}',
    '\U{2007}', '\U{2008}', '\U{2009}', '\U{200A}', '\U{2028}', '\U{2029}', '\U{202F}',
    '\U{205F}', '\U{3000}'
  }

  function TrimLeft(s: string, cut: set<char>): (r: string)
    ensures r == [] || r[0] !in cut
  {
    if s != [] && s[0] in cut then TrimLeft(s[1..], cut) else s
  }

  function TrimRight(s: string, cut: set<char>): (r: string)
    ensures r <= s
    ensures r == [] || r[|r| - 1] !in cut
  {
    if s != [] && s[|s| - 1] in cut then TrimRight(s[..|s| - 1], cut) else s
  }

  function Trim(s: string, cut: set<char>): string {
    TrimRight(TrimLeft(s, cut), cut)
  }

  function TrimSpace(s: string): string {
    Trim(s, WHITESPACE)
  }

  // Neither end of s is in the cutset.
  predicate Trimmed(s: string, cut: set<char>) {
    s == [] || (s[0] !in cut && s[|s| - 1] !in cut)
  }

  lemma TrimmedIffFixed(s: string, cut: set<char>)
    ensures Trimmed(s, cut) <==> Trim(s, cut) == s
    ensures Trimmed(Trim(s, cut), cut)
  {
    var left := TrimLeft(s, cut);
    var r := TrimRight(left, cut);
    if r != [] {
      assert r[0] == left[0];
    }
  }

  lemma TrimTwice(s: string)
    ensures TrimSpace(TrimSpace(s)) == TrimSpace(s)
  {
    TrimmedIffFixed(s, WHITESPACE);
    TrimmedIffFixed(TrimSpace(s), WHITESPACE);
  }

  // A prefix survives right-trimming while something of the rest does.
  lemma {:induction false} TrimRightPrefix(a: string, b: string, cut: set<char>)
    requires TrimRight(b, cut) != []
    ensures TrimRight(a + b, cut) == a + TrimRight(b, cut)
  {
    assert (a + b)[|a + b| - 1] == b[|b| - 1];
    if b[|b| - 1] in cut {
      TrimRightPrefix(a, b[..|b| - 1], cut);
      assert (a + b)[..|a + b| - 1] == a + b[..|b| - 1];
    }
  }

  function LowerChar(c: char): char {
    if 'A' <= c <= 'Z' then (c as int + 32) as char else c
  }

  function ToLower(s: string): (r: string)
    ensures |r| == |s|
    ensures forall i | 0 <= i < |s| :: r[i] == LowerChar(s[i])
  {
    if s == [] then [] else [LowerChar(s[0])] + ToLower(s[1..])
  }

  function UpperChar(c: char): char {
    if 'a' <= c <= 'z' then (c as int - 32) as char else c
  }

  function ToUpper(s: string): (r: string)
    ensures |r| == |s|
    ensures forall i | 0 <= i < |s| :: r[i] == UpperChar(s[i])
  {
    if s == [] then [] else [UpperChar(s[0])] + ToUpper(s[1..])
  }

  predicate EqualFold(a: string, b: string) {
    ToLower(a) == ToLower(b)
  }

  lemma LowerCharKeepsSpace(c: char)
    ensures LowerChar(c) in WHITESPACE <==> c in WHITESPACE
    ensures LowerChar(LowerChar(c)) == LowerChar(c)
  {
  }

  // Lower-casing a trimmed string leaves it trimmed, and doing either twice changes nothing.
  lemma LowerTrimFixed(s: string)
    ensures var n := ToLower(TrimSpace(s)); TrimSpace(n) == n && ToLower(n) == n
  {
    var t := TrimSpace(s);
    var n := ToLower(t);
    TrimmedIffFixed(s, WHITESPACE);
    if t != [] {
      LowerCharKeepsSpace(t[0]);
      LowerCharKeepsSpace(t[|t| - 1]);
    }
    TrimmedIffFixed(n, WHITESPACE);
    assert ToLower(n) == n;
  }

  lemma UpperCharKeepsSpace(c: char)
    ensures UpperChar(c) in WHITESPACE <==> c in WHITESPACE
    ensures UpperChar(UpperChar(c)) == UpperChar(c)
  {
  }

  lemma UpperTrimFixed(s: string)
    ensures var n := ToUpper(TrimSpace(s)); TrimSpace(n) == n && ToUpper(n) == n
  {
    var t := TrimSpace(s);
    var n := ToUpper(t);
    TrimmedIffFixed(s, WHITESPACE);
    if t != [] {
      UpperCharKeepsSpace(t[0]);
      UpperCharKeepsSpace(t[|t| - 1]);
    }
    TrimmedIffFixed(n, WHITESPACE);
    assert ToUpper(n) == n;
  }

  // The first argument that is not blank, trimmed; "" when all are.
  function FirstNonEmpty(a: string, b: string): string {
    if TrimSpace(a) != "" then TrimSpace(a) else TrimSpace(b)
  }

  // The trimmed string, or a default when it is blank.
  function TrimOr(s: string, otherwise: string): string {
    if TrimSpace(s) == "" then otherwise else TrimSpace(s)
  }

  function LowerOr(s: string, otherwise: string): string {
    var t := ToLower(TrimSpace(s));
    if t == "" then otherwise else t
  }

  lemma LowerOrIs(s: string, otherwise: string)
    ensures LowerOr(s, otherwise) == if TrimSpace(s) == "" then otherwise else ToLower(TrimSpace(s))
  {
    assert |ToLower(TrimSpace(s))| == |TrimSpace(s)|;
    hide TrimSpace;
  }

  lemma LowerOrAgain(s: string, otherwise: string)
    requires otherwise != "" && TrimSpace(otherwise) == otherwise && ToLower(otherwise) == otherwise
    ensures LowerOr(LowerOr(s, otherwise), otherwise) == LowerOr(s, otherwise)
  {
    LowerTrimFixed(s);
    hide TrimSpace;
    hide ToLower;
  }

  predicate Contains(s: string, sub: string) {
    exists i | 0 <= i <= |s| :: sub <= s[i..]
  }

  // A string that holds no c splits at its first c in one way only.
  lemma SplitAtFirst(a1: string, b1: string, a2: string, b2: string, c: char)
    requires c !in a1 && c !in a2
    requires a1 + [c] + b1 == a2 + [c] + b2
    ensures a1 == a2 && b1 == b2
  {
    var s := a1 + [c] + b1;
    assert s[|a1|] == c && s[|a2|] == c;
    assert forall i | 0 <= i < |a1| :: s[i] == a1[i];
    assert forall i | 0 <= i < |a2| :: s[i] == a2[i];
    assert a1 == s[..|a1|] && a2 == s[..|a2|];
    assert b1 == s[|a1| + 1..] && b2 == s[|a2| + 1..];
  }

  // ... and at its last c likewise.
  lemma SplitAtLast(a1: string, b1: string, a2: string, b2: string, c: char)
    requires c !in b1 && c !in b2
    requires a1 + [c] + b1 == a2 + [c] + b2
    ensures a1 == a2 && b1 == b2
  {
    var s := a1 + [c] + b1;
    assert s[|a1|] == c && s[|a2|] == c;
    assert forall i | |a1| < i < |s| :: s[i] == b1[i - |a1| - 1];
    assert forall i | |a2| < i < |s| :: s[i] == b2[i - |a2| - 1];
    assert a1 == s[..|a1|] && a2 == s[..|a2|];
    assert b1 == s[|a1| + 1..] && b2 == s[|a2| + 1..];
  }

  predicate AllIn(s: string, cut: set<char>) {
    forall i | 0 <= i < |s| :: s[i] in cut
  }

  lemma {:induction false} TrimLeftSplits(s: string, cut: set<char>) returns (head: string)
    ensures s == head + TrimLeft(s, cut) && AllIn(head, cut)
  {
    if s != [] && s[0] in cut {
      var more := TrimLeftSplits(s[1..], cut);
      head := [s[0]] + more;
    } else {
      head := [];
    }
  }

  lemma {:induction false} TrimRightSplits(s: string, cut: set<char>) returns (tail: string)
    ensures s == TrimRight(s, cut) + tail && AllIn(tail, cut)
  {
    if s != [] && s[|s| - 1] in cut {
      var more := TrimRightSplits(s[..|s| - 1], cut);
      tail := more + [s[|s| - 1]];
    } else {
      tail := [];
    }
  }

  // Trimming takes a head and a tail of cut characters away and leaves none at either end.
  lemma TrimSplits(s: string, cut: set<char>)
    ensures Trimmed(Trim(s, cut), cut)
    ensures exists head, tail :: s == head + Trim(s, cut) + tail && AllIn(head, cut) && AllIn(tail, cut)
  {
    TrimmedIffFixed(s, cut);
    var head := TrimLeftSplits(s, cut);
    var tail := TrimRightSplits(TrimLeft(s, cut), cut);
    assert s == head + Trim(s, cut) + tail;
  }

  // The same letter in either case, or the same character.
  predicate SameLetter(c: char, d: char) {
    || c == d
    || ('A' <= c <= 'Z' && d as int == c as int + 32)
    || ('A' <= d <= 'Z' && c as int == d as int + 32)
  }

  // Strings fold alike exactly when they differ in the case of letters only.
  lemma FoldsAlikeIff(a: string, b: string)
    ensures EqualFold(a, b) <==> |a| == |b| && forall i | 0 <= i < |a| :: SameLetter(a[i], b[i])
  {
    if |a| == |b| {
      forall i | 0 <= i < |a| ensures ToLower(a)[i] == ToLower(b)[i] <==> SameLetter(a[i], b[i]) {
      }
      assert ToLower(a) == ToLower(b) <==> forall i | 0 <= i < |a| :: ToLower(a)[i] == ToLower(b)[i];
    }
  }

  // A string that contains another holds each of its characters.
  lemma ContainsChars(s: string, sub: string, c: char)
    requires Contains(s, sub) && c in sub
    ensures c in s
  {
    var i :| 0 <= i <= |s| && sub <= s[i..];
    var j :| 0 <= j < |sub| && sub[j] == c;
    assert s[i..][j] == c;
  }

  lemma {:induction false} TrimLeftHead(head: string, s: string, cut: set<char>)
    requires AllIn(head, cut)
    ensures TrimLeft(head + s, cut) == TrimLeft(s, cut)
  {
    if head == [] {
      assert head + s == s;
    } else {
      assert (head + s)[0] == head[0] && (head + s)[1..] == head[1..] + s;
      TrimLeftHead(head[1..], s, cut);
    }
  }

  lemma {:induction false} TrimRightTail(s: string, tail: string, cut: set<char>)
    requires AllIn(tail, cut)
    ensures TrimRight(s + tail, cut) == TrimRight(s, cut)
    decreases tail
  {
    if tail == [] {
      assert s + tail == s;
    } else {
      var front := tail[..|tail| - 1];
      assert (s + tail)[|s + tail| - 1] == tail[|tail| - 1] && (s + tail)[..|s + tail| - 1] == s + front;
      TrimRightTail(s, front, cut);
    }
  }

  // Whatever stands in cut characters around a trimmed string, trimming finds that string.
  lemma TrimFinds(head: string, s: string, tail: string, cut: set<char>)
    requires AllIn(head, cut) && AllIn(tail, cut) && s != [] && Trimmed(s, cut)
    ensures Trim(head + s + tail, cut) == s
  {
    assert head + s + tail == head + (s + tail);
    TrimLeftHead(head, s + tail, cut);
    assert (s + tail)[0] == s[0];
    TrimRightTail(s, tail, cut);
    TrimmedIffFixed(s, cut);
  }
}
