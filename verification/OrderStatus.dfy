// Order statuses: what a provider reports, what is stored, and how one updates the other.
module OrderStatus {
  import opened Text

  const PENDING := "pending"
  const SUBMITTED := "submitted"
  const FILLED := "filled"
  const CANCELLED := "cancelled"
  const FAILED := "failed"
  const UNKNOWN := "unknown"
  const REJECTED := "rejected"

  // strings.ToLower(strings.TrimSpace(s)).
  function Folded(s: string): string {
    ToLower(TrimSpace(s))
  }

  function Normalize(status: string): string {
    NormalizeFolded(Folded(status))
  }

  function NormalizeFolded(n: string): string {
    if n in {"", "ok", "order", "open", "resting", "submitted", "triggered"} then SUBMITTED
    else if n == "filled" then FILLED
    else if n in {"cancelled", "canceled"} then CANCELLED
    else if n in {"rejected", "failed"} then FAILED
    else if n in {"unknown", "unknownoid"} then UNKNOWN
    else if Contains(n, "cancel") then CANCELLED
    else if Contains(n, "reject") then FAILED
    else n
  }

  predicate Terminal(status: string) {
    TerminalFolded(Folded(status))
  }

  predicate TerminalFolded(n: string) {
    n == CANCELLED || n == FILLED || n == FAILED || n == REJECTED
  }

  // A late "submitted" never reopens a terminal order; anything else replaces the status.
  function MergeSynced(current: string, next: string): string {
    if TrimSpace(next) == "" then current
    else if Terminal(current) && next == SUBMITTED then current
    else next
  }

  // Statuses that normalisation leaves as they are.
  predicate FixedPoint(status: string) {
    Normalize(status) == status
  }

  predicate Plain(s: string) {
    TrimSpace(s) == s && ToLower(s) == s && s != ""
  }

  lemma PlainIfLower(s: string)
    requires s != "" && forall i | 0 <= i < |s| :: 'a' <= s[i] <= 'z'
    ensures Plain(s)
  {
    TrimmedIffFixed(s, WHITESPACE);
    assert forall i | 0 <= i < |s| :: ToLower(s)[i] == s[i];
  }

  lemma PlainPending()
    ensures Plain(PENDING)
  {
    PlainIfLower(PENDING);
  }

  lemma PlainSubmitted()
    ensures Plain(SUBMITTED)
  {
    PlainIfLower(SUBMITTED);
  }

  lemma PlainUnknown()
    ensures Plain(UNKNOWN)
  {
    PlainIfLower(UNKNOWN);
  }

  lemma PlainFilled()
    ensures Plain(FILLED)
  {
    PlainIfLower(FILLED);
  }

  lemma PlainCancelled()
    ensures Plain(CANCELLED)
  {
    PlainIfLower(CANCELLED);
  }

  lemma PlainFailed()
    ensures Plain(FAILED)
  {
    PlainIfLower(FAILED);
  }

  lemma PlainNames()
    ensures Plain(PENDING) && Plain(SUBMITTED) && Plain(UNKNOWN)
    ensures Plain(FILLED) && Plain(CANCELLED) && Plain(FAILED)
  {
    hide Plain;
    PlainPending();
    PlainSubmitted();
    PlainUnknown();
    PlainFilled();
    PlainCancelled();
    PlainFailed();
  }

  lemma NamesNormalizeFolded()
    ensures NormalizeFolded(SUBMITTED) == SUBMITTED
    ensures NormalizeFolded(FILLED) == FILLED
    ensures NormalizeFolded(CANCELLED) == CANCELLED
    ensures NormalizeFolded(FAILED) == FAILED
    ensures NormalizeFolded(UNKNOWN) == UNKNOWN
  {
    hide Contains;
  }

  lemma FoldedPlain(s: string)
    ensures Folded(Folded(s)) == Folded(s)
    ensures Folded(s) != "" ==> Plain(Folded(s))
  {
    LowerTrimFixed(s);
  }

  lemma PlainFolded(s: string)
    requires Plain(s)
    ensures Folded(s) == s
  {
  }

  lemma NormalizeFoldedRange(n: string)
    ensures var r := NormalizeFolded(n);
            || r == SUBMITTED || r == FILLED || r == CANCELLED || r == FAILED || r == UNKNOWN
            || (r == n && n != "")
  {
    hide Contains;
  }

  // Normalisation gives a plain, never blank status, and normalising again changes nothing.
  lemma NormalizeIdempotent(status: string)
    ensures FixedPoint(Normalize(status)) && Plain(Normalize(status))
  {
    PlainNames();
    NamesNormalizeFolded();
    NormalizeFoldedRange(Folded(status));
    FoldedPlain(status);
    PlainFolded(Normalize(status));
    hide Plain;
    hide Folded;
    hide NormalizeFolded;
  }

  // A fixed point is plain, so the trimming that happens on every write leaves it alone.
  lemma FixedPointPlain(status: string)
    requires FixedPoint(status)
    ensures Plain(status)
  {
    NormalizeIdempotent(status);
  }

  lemma PendingIsFixed()
    ensures FixedPoint(PENDING)
  {
    PlainPending();
    PlainFolded(PENDING);
    hide Folded;
    PendingContains();
    hide Contains;
  }

  lemma PendingContains()
    ensures !Contains(PENDING, "cancel") && !Contains(PENDING, "reject")
  {
    assert forall i | 0 <= i < |PENDING| :: PENDING[i..][0] == PENDING[i] != 'r' && PENDING[i] != 'c';
    assert "reject"[0] == 'r' && "cancel"[0] == 'c';
  }

  // Among the stored statuses, the fixed points, three are terminal.
  lemma TerminalFixedPoints(status: string)
    requires FixedPoint(status)
    ensures Terminal(status) <==> status == CANCELLED || status == FILLED || status == FAILED
  {
    FixedPointPlain(status);
    PlainFolded(status);
    NamesApart();
    RejectedFails();
    hide Folded;
    hide Plain;
    hide NormalizeFolded;
  }

  lemma RejectedFails()
    ensures NormalizeFolded(REJECTED) == FAILED
  {
  }

  lemma NamesApart()
    ensures !TerminalFolded(SUBMITTED) && !TerminalFolded(PENDING) && !TerminalFolded(UNKNOWN)
    ensures REJECTED != FAILED && REJECTED != CANCELLED && REJECTED != FILLED
    ensures TerminalFolded(CANCELLED) && TerminalFolded(FILLED) && TerminalFolded(FAILED)
    ensures CANCELLED != FILLED && CANCELLED != FAILED && CANCELLED != SUBMITTED && CANCELLED != PENDING
  {
  }

  // With any provider status at all, an update gives "submitted" only to an order that is
  // not terminal and a report that normalises to "submitted".
  lemma MergeReopensOnly(current: string, reported: string)
    ensures MergeSynced(current, Normalize(reported)) == SUBMITTED <==>
            Normalize(reported) == SUBMITTED && !Terminal(current)
  {
    NormalizeIdempotent(reported);
    PlainSubmitted();
    PlainFolded(SUBMITTED);
    NamesApart();
    assert TrimSpace(Normalize(reported)) != "";
    hide Folded;
    hide Plain;
    hide NormalizeFolded;
    hide TerminalFolded;
  }

  lemma MergeKeepsFixed(current: string, reported: string)
    requires FixedPoint(current)
    ensures FixedPoint(MergeSynced(current, Normalize(reported)))
  {
    NormalizeIdempotent(reported);
    hide FixedPoint;
  }

  // The provider statuses across which terminal orders are promised to stay terminal.
  predicate Settling(reported: string) {
    var n := Normalize(reported);
    n == SUBMITTED || n == FILLED || n == CANCELLED || n == FAILED
  }

  // A terminal order stays terminal under a report exactly when the report is itself
  // terminal or is one that normalises to "submitted".
  lemma MergeStaysTerminal(current: string, reported: string)
    requires Terminal(current)
    ensures Terminal(MergeSynced(current, Normalize(reported))) <==> Settling(reported)
  {
    NormalizeIdempotent(reported);
    TerminalFixedPoints(Normalize(reported));
    assert TrimSpace(Normalize(reported)) != "";
    hide Folded;
    hide Normalize;
    hide TerminalFolded;
  }

  // What providers say of an order that is open, and of one they do not know.
  const OPEN_WORDS := {"", "ok", "order", "open", "resting", "submitted", "triggered"}
  const UNKNOWN_WORDS := {"unknown", "unknownoid"}

  // Which status a provider's word stands for, n being the word trimmed and in lower case.
  ghost predicate StandsFor(n: string, status: string) {
    && (status == CANCELLED <==> Contains(n, "cancel"))
    && (status == FAILED <==> n == "failed" || (Contains(n, "reject") && !Contains(n, "cancel")))
    && (status == FILLED <==> n == "filled")
    && (status == UNKNOWN <==> n in UNKNOWN_WORDS)
    && (status == SUBMITTED <==> n in OPEN_WORDS)
    && (status !in {CANCELLED, FAILED, FILLED, UNKNOWN, SUBMITTED} ==> status == n)
  }

  lemma NotWithin(n: string)
    ensures 'l' !in n || 'n' !in n ==> !Contains(n, "cancel")
    ensures 'j' !in n ==> !Contains(n, "reject")
  {
    if Contains(n, "cancel") {
      assert "cancel"[5] == 'l' && "cancel"[2] == 'n';
      ContainsChars(n, "cancel", 'l');
      ContainsChars(n, "cancel", 'n');
    }
    if Contains(n, "reject") {
      assert "reject"[2] == 'j';
      ContainsChars(n, "reject", 'j');
    }
  }

  lemma OpenWords(n: string)
    requires n in OPEN_WORDS
    ensures !Contains(n, "cancel") && !Contains(n, "reject") && n !in UNKNOWN_WORDS && n != "filled" && n != "failed"
  {
    assert 'l' !in n && 'j' !in n;
    NotWithin(n);
    hide Contains;
  }

  lemma OtherWords(n: string)
    requires n == "filled" || n == "failed" || n in UNKNOWN_WORDS
    ensures !Contains(n, "cancel") && !Contains(n, "reject")
  {
    assert ('l' !in n || 'n' !in n) && 'j' !in n;
    NotWithin(n);
    hide Contains;
  }

  lemma CancelWords()
    ensures Contains("cancelled", "cancel") && Contains("canceled", "cancel")
    ensures Contains("rejected", "reject") && !Contains("rejected", "cancel")
  {
    assert "cancel" <= "cancelled"[0..] && "cancel" <= "canceled"[0..] && "reject" <= "rejected"[0..];
    assert 'l' !in "rejected";
    NotWithin("rejected");
  }

  lemma StatusesApart()
    ensures |SUBMITTED| == |CANCELLED| == 9 && |FILLED| == |FAILED| == 6 && |UNKNOWN| == 7
    ensures SUBMITTED != CANCELLED && FILLED != FAILED
  {
    assert SUBMITTED[0] != CANCELLED[0] && FILLED[1] != FAILED[1];
  }

  lemma NamesOwnWords()
    ensures SUBMITTED in OPEN_WORDS && UNKNOWN in UNKNOWN_WORDS
    ensures FILLED == "filled" && FAILED == "failed"
    ensures Contains(CANCELLED, "cancel")
  {
    CancelWords();
    hide Contains;
  }

  // The word after the words that are listed by themselves.
  function Listed(n: string): string {
    if n in OPEN_WORDS then SUBMITTED
    else if n == "filled" then FILLED
    else if n == "failed" then FAILED
    else if n in UNKNOWN_WORDS then UNKNOWN
    else if Contains(n, "cancel") then CANCELLED
    else if Contains(n, "reject") then FAILED
    else n
  }

  const CANCEL_WORDS := {"cancelled", "canceled"}

  lemma DoubleWords()
    ensures CANCEL_WORDS !! OPEN_WORDS && CANCEL_WORDS !! UNKNOWN_WORDS
    ensures "filled" !in CANCEL_WORDS && "failed" !in CANCEL_WORDS
    ensures REJECTED !in OPEN_WORDS + UNKNOWN_WORDS + CANCEL_WORDS && REJECTED != "filled" && REJECTED != "failed"
  {
  }

  // The function again, with its word lists by name.
  lemma ByLists(n: string)
    ensures NormalizeFolded(n) ==
            if n in OPEN_WORDS then SUBMITTED
            else if n == "filled" then FILLED
            else if n in CANCEL_WORDS then CANCELLED
            else if n == REJECTED || n == "failed" then FAILED
            else if n in UNKNOWN_WORDS then UNKNOWN
            else if Contains(n, "cancel") then CANCELLED
            else if Contains(n, "reject") then FAILED
            else n
  {
    hide Contains;
  }

  lemma ListedIs(n: string)
    ensures NormalizeFolded(n) == Listed(n)
  {
    CancelWords();
    DoubleWords();
    ByLists(n);
    assert n in CANCEL_WORDS ==> Contains(n, "cancel");
    assert n == REJECTED ==> Contains(n, "reject") && !Contains(n, "cancel");
    hide Contains;
    hide NormalizeFolded;
    hide OPEN_WORDS;
    hide UNKNOWN_WORDS;
    hide CANCEL_WORDS;
    hide SUBMITTED;
    hide CANCELLED;
    hide UNKNOWN;
    hide REJECTED;
  }

  lemma ListedStandsFor(n: string)
    ensures StandsFor(n, Listed(n))
  {
    StatusesApart();
    NamesOwnWords();
    if n in OPEN_WORDS {
      OpenWords(n);
    }
    if n == "filled" || n == "failed" || n in UNKNOWN_WORDS {
      OtherWords(n);
    }
    WordsApart();
    hide Contains;
    hide OPEN_WORDS;
    hide UNKNOWN_WORDS;
    hide SUBMITTED;
    hide CANCELLED;
    hide UNKNOWN;
  }

  lemma WordsApart()
    ensures "filled" !in OPEN_WORDS && "failed" !in OPEN_WORDS && "filled" !in UNKNOWN_WORDS
    ensures "failed" !in UNKNOWN_WORDS && UNKNOWN_WORDS !! OPEN_WORDS && "filled" != "failed"
  {
  }

  // The whole table, on every report.
  lemma NormalizeStandsFor(reported: string)
    ensures StandsFor(ToLower(TrimSpace(reported)), Normalize(reported))
  {
    ListedIs(Folded(reported));
    ListedStandsFor(Folded(reported));
    hide StandsFor;
    hide NormalizeFolded;
    hide Listed;
  }

  // A stored status after a report: a terminal one stays under an open word, and any other
  // gives way to what the word stands for.
  ghost predicate TakesReport(before: string, reported: string, after: string) {
    var n := ToLower(TrimSpace(reported));
    if ToLower(TrimSpace(before)) in {CANCELLED, FILLED, FAILED, REJECTED} && n in OPEN_WORDS
    then after == before
    else StandsFor(n, after)
  }

  lemma TerminalIs(status: string)
    ensures Terminal(status) <==> ToLower(TrimSpace(status)) in {CANCELLED, FILLED, FAILED, REJECTED}
  {
    hide TrimSpace;
    hide ToLower;
  }

  lemma MergeTakesReport(before: string, reported: string)
    ensures TakesReport(before, reported, MergeSynced(before, Normalize(reported)))
  {
    NormalizeStandsFor(reported);
    NormalizeIdempotent(reported);
    TerminalIs(before);
    assert TrimSpace(Normalize(reported)) != "";
    hide StandsFor;
    hide ToLower;
    hide Normalize;
    hide Terminal;
    hide TrimSpace;
    hide OPEN_WORDS;
    hide UNKNOWN_WORDS;
  }
}
