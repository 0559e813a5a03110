// Trade fills kept per user, one per fill key, and the newest of them.
module Fills {
  import opened Text
  import Decimal

  datatype Fill = Fill(
    symbol: string, time: int, hash: string, oid: int, tid: int,
    pnl: string, pnlPercent: string, dir: string, px: string, startPosition: string,
    sz: string, fee: string, feeToken: string)

  type UserFills = map<string, Fill>
  type FillBook = map<string, UserFills>

  const DEFAULT_FILLS: nat := 100
  const MAX_FILLS: nat := 2000

  // strconv.FormatInt(n, 10).
  function FormatInt(n: int): string {
    if n < 0 then "-" + Decimal.Digits(-n) else Decimal.Digits(n)
  }

  predicate HashForm(f: Fill) {
    f.hash != "" && f.tid != 0
  }

  function FillKey(f: Fill): string {
    if HashForm(f) then f.hash + ":" + FormatInt(f.tid)
    else f.symbol + ":" + FormatInt(f.time) + ":" + FormatInt(f.oid) + ":" + FormatInt(f.tid)
  }

  lemma FormatIntFacts(n: int)
    ensures ':' !in FormatInt(n) && FormatInt(n) != ""
    ensures FormatInt(n)[0] == '-' <==> n < 0
  {
    var d := Decimal.Digits(if n < 0 then -n else n);
    assert forall i | 0 <= i < |d| :: Decimal.IsDigit(d[i]);
    assert FormatInt(n) == d || FormatInt(n) == "-" + d;
  }

  lemma FormatIntInjective(m: int, n: int)
    requires FormatInt(m) == FormatInt(n)
    ensures m == n
  {
    FormatIntFacts(m);
    FormatIntFacts(n);
    if m < 0 {
      assert FormatInt(m)[1..] == Decimal.Digits(-m);
      assert FormatInt(n)[1..] == Decimal.Digits(-n);
    }
  }

  // What two colon-joined strings with equal last numbers share.
  lemma SameLastNumber(a: string, m: int, b: string, n: int)
    requires a + ":" + FormatInt(m) == b + ":" + FormatInt(n)
    ensures a == b && m == n
  {
    FormatIntFacts(m);
    FormatIntFacts(n);
    var x, y := FormatInt(m), FormatInt(n);
    hide FormatInt;
    SplitAtLast(a, x, b, y, ':');
    FormatIntInjective(m, n);
  }

  // The exact cases in which two fills share a key: equal parts in the same form, or one
  // hash that spells out the other's symbol, time and order id.
  predicate SameKeyParts(f: Fill, g: Fill) {
    var hashed, alsoHashed := f.hash != "" && f.tid != 0, g.hash != "" && g.tid != 0;
    if hashed && alsoHashed then f.hash == g.hash && f.tid == g.tid
    else if hashed then f.hash == g.symbol + ":" + FormatInt(g.time) + ":" + FormatInt(g.oid) && f.tid == g.tid
    else if alsoHashed then g.hash == f.symbol + ":" + FormatInt(f.time) + ":" + FormatInt(f.oid) && g.tid == f.tid
    else f.symbol == g.symbol && f.time == g.time && f.oid == g.oid && f.tid == g.tid
  }

  // The part of a key before its last number.
  function KeyStem(f: Fill): string {
    if HashForm(f) then f.hash else f.symbol + ":" + FormatInt(f.time) + ":" + FormatInt(f.oid)
  }

  lemma FillKeyExact(f: Fill, g: Fill)
    ensures FillKey(f) == FillKey(g) <==> SameKeyParts(f, g)
  {
    hide FormatInt;
    assert FillKey(f) == KeyStem(f) + ":" + FormatInt(f.tid);
    assert FillKey(g) == KeyStem(g) + ":" + FormatInt(g.tid);
    if FillKey(f) == FillKey(g) {
      SameLastNumber(KeyStem(f), f.tid, KeyStem(g), g.tid);
      if !HashForm(f) && !HashForm(g) {
        SameLastNumber(f.symbol + ":" + FormatInt(f.time), f.oid, g.symbol + ":" + FormatInt(g.time), g.oid);
        SameLastNumber(f.symbol, f.time, g.symbol, g.time);
      }
    }
  }

  // For hashes without ':' the key is faithful, whatever the symbols contain: it tells the
  // two forms apart and determines every part it is made of.
  lemma FillKeyFaithful(f: Fill, g: Fill)
    requires ':' !in f.hash && ':' !in g.hash
    ensures FillKey(f) == FillKey(g) <==>
            || (HashForm(f) && HashForm(g) && f.hash == g.hash && f.tid == g.tid)
            || (!HashForm(f) && !HashForm(g) &&
                f.symbol == g.symbol && f.time == g.time && f.oid == g.oid && f.tid == g.tid)
  {
    FillKeyExact(f, g);
    hide FormatInt;
    hide FillKey;
    StemHasColon(f.symbol, FormatInt(f.time), FormatInt(f.oid));
    StemHasColon(g.symbol, FormatInt(g.time), FormatInt(g.oid));
  }

  lemma StemHasColon(a: string, b: string, c: string)
    ensures ':' in a + ":" + b + ":" + c
  {
    assert (a + ":" + b + ":" + c)[|a|] == ':';
  }

  // Without that condition the two forms can meet.
  lemma FormsCollide(f: Fill)
    requires f.hash == "" && f.tid != 0
    ensures var g := f.(hash := f.symbol + ":" + FormatInt(f.time) + ":" + FormatInt(f.oid));
            f != g && FillKey(f) == FillKey(g)
  {
    var g := f.(hash := f.symbol + ":" + FormatInt(f.time) + ":" + FormatInt(f.oid));
    hide FormatInt;
    StemHasColon(f.symbol, FormatInt(f.time), FormatInt(f.oid));
    FillKeyExact(f, g);
  }

  // strings.ToLower(firstNonEmpty("", address)).
  function OwnerKey(address: string): string {
    ToLower(FirstNonEmpty("", address))
  }

  function Put(m: UserFills, xs: seq<Fill>): UserFills
    decreases xs
  {
    if xs == [] then m else Put(m[FillKey(xs[0]) := xs[0]], xs[1..])
  }

  function Of(book: FillBook, key: string): UserFills {
    if key in book then book[key] else map[]
  }

  // AppendFills as one step on the book; an empty batch still opens the user's entry.
  function AfterAppend(book: FillBook, address: string, xs: seq<Fill>): FillBook {
    book[OwnerKey(address) := Put(Of(book, OwnerKey(address)), xs)]
  }

  lemma {:induction false} PutPut(m: UserFills, xs: seq<Fill>, ys: seq<Fill>)
    ensures Put(Put(m, xs), ys) == Put(m, xs + ys)
    decreases xs
  {
    hide FillKey;
    if xs == [] {
      assert xs + ys == ys;
    } else {
      assert (xs + ys)[0] == xs[0] && (xs + ys)[1..] == xs[1..] + ys;
      PutPut(m[FillKey(xs[0]) := xs[0]], xs[1..], ys);
    }
  }

  // The batch has joined what is held for the address, outer spaces and letter case aside,
  // and what is held for any other address is as it was.
  ghost predicate Added(before: FillBook, after: FillBook, address: string, xs: seq<Fill>) {
    var owner := ToLower(TrimSpace(address));
    && Of(after, owner) == Put(Of(before, owner), xs)
    && forall other | other != owner :: Of(after, other) == Of(before, other)
  }

  lemma OwnerKeyIs(address: string)
    ensures OwnerKey(address) == ToLower(TrimSpace(address))
  {
    TrimmedIffFixed("", WHITESPACE);
    assert TrimSpace("") == "";
    hide TrimSpace;
  }

  lemma AppendAdds(book: FillBook, address: string, xs: seq<Fill>)
    ensures Added(book, AfterAppend(book, address, xs), address, xs)
  {
    OwnerKeyIs(address);
    hide OwnerKey;
    hide TrimSpace;
    hide Put;
  }

  // So a batch for one address is seen under another exactly when the two differ in outer
  // spaces and letter case only: then every fill of it is held there, under its key.
  lemma AddedSeenBy(before: FillBook, after: FillBook, a: string, b: string, xs: seq<Fill>)
    requires Added(before, after, a, xs)
    ensures var held, held' := Of(before, ToLower(TrimSpace(b))), Of(after, ToLower(TrimSpace(b)));
            if EqualFold(TrimSpace(a), TrimSpace(b))
            then forall key :: key in held' <==> key in held || KeyIn(xs, key)
            else held' == held
  {
    hide TrimSpace;
    if EqualFold(TrimSpace(a), TrimSpace(b)) {
      forall key ensures key in Of(after, ToLower(TrimSpace(b))) <==>
                           key in Of(before, ToLower(TrimSpace(b))) || KeyIn(xs, key)
      {
        PutIs(Of(before, ToLower(TrimSpace(b))), xs, key);
      }
    }
  }

  // Appending in two batches is appending their concatenation.
  lemma AppendTwice(book: FillBook, address: string, xs: seq<Fill>, ys: seq<Fill>)
    ensures AfterAppend(AfterAppend(book, address, xs), address, ys) == AfterAppend(book, address, xs + ys)
  {
    PutPut(Of(book, OwnerKey(address)), xs, ys);
    hide Put;
    hide OwnerKey;
  }

  ghost predicate KeyIn(xs: seq<Fill>, key: string) {
    exists i | 0 <= i < |xs| :: FillKey(xs[i]) == key
  }

  // The fill is the last of xs with its key.
  ghost predicate LastOf(xs: seq<Fill>, key: string, f: Fill) {
    exists i | 0 <= i < |xs| :: LastAt(xs, key, i) && xs[i] == f
  }

  ghost predicate LastAt(xs: seq<Fill>, key: string, i: nat)
    requires i < |xs|
  {
    FillKey(xs[i]) == key && forall j | i < j < |xs| :: FillKey(xs[j]) != key
  }

  // What a batch leaves: the old keys and those of the batch, each with its last fill.
  lemma {:induction false} PutIs(m: UserFills, xs: seq<Fill>, key: string)
    ensures key in Put(m, xs) <==> key in m || KeyIn(xs, key)
    ensures KeyIn(xs, key) ==> LastOf(xs, key, Put(m, xs)[key])
    ensures key in m && !KeyIn(xs, key) ==> Put(m, xs)[key] == m[key]
    decreases xs
  {
    hide FillKey;
    if xs != [] {
      var n := |xs| - 1;
      var front, last := xs[..n], xs[n];
      assert xs == front + [last];
      PutPut(m, front, [last]);
      PutOne(Put(m, front), last);
      PutIs(m, front, key);
      if FillKey(last) == key {
        assert LastAt(xs, key, n);
      } else {
        if KeyIn(front, key) {
          var i :| 0 <= i < |front| && LastAt(front, key, i) && front[i] == Put(m, front)[key];
          assert LastAt(xs, key, i) && xs[i] == front[i];
        }
        if KeyIn(xs, key) {
          var i :| 0 <= i < |xs| && FillKey(xs[i]) == key;
          assert front[i] == xs[i];
        }
      }
    }
  }

  lemma PutOne(m: UserFills, f: Fill)
    ensures Put(m, [f]) == m[FillKey(f) := f]
  {
    hide FillKey;
    assert [f][1..] == [];
  }

  // Replaying a batch, as reconnects do, changes nothing.
  lemma ReplayIdempotent(m: UserFills, xs: seq<Fill>)
    ensures Put(Put(m, xs), xs) == Put(m, xs)
  {
    hide FillKey;
    hide Put;
    var once, twice := Put(m, xs), Put(Put(m, xs), xs);
    forall key ensures key in twice <==> key in once
      ensures key in once ==> twice[key] == once[key]
    {
      PutIs(m, xs, key);
      PutIs(once, xs, key);
      if KeyIn(xs, key) {
        LastUnique(xs, key, once[key], twice[key]);
      }
    }
  }

  lemma LastUnique(xs: seq<Fill>, key: string, f: Fill, g: Fill)
    requires LastOf(xs, key, f) && LastOf(xs, key, g)
    ensures f == g
  {
    hide FillKey;
    var i :| 0 <= i < |xs| && LastAt(xs, key, i) && xs[i] == f;
    var j :| 0 <= j < |xs| && LastAt(xs, key, j) && xs[j] == g;
    assert i == j;
  }

  // Every fill is filed under its own key.
  ghost predicate WellKeyed(m: UserFills) {
    forall k | k in m :: FillKey(m[k]) == k
  }

  ghost predicate BookKeyed(book: FillBook) {
    forall u | u in book :: WellKeyed(book[u])
  }

  lemma {:induction false} PutWellKeyed(m: UserFills, xs: seq<Fill>)
    requires WellKeyed(m)
    ensures WellKeyed(Put(m, xs))
    decreases xs
  {
    hide FillKey;
    if xs != [] {
      PutWellKeyed(m[FillKey(xs[0]) := xs[0]], xs[1..]);
    }
  }

  lemma AppendKeyed(book: FillBook, address: string, xs: seq<Fill>)
    requires BookKeyed(book)
    ensures BookKeyed(AfterAppend(book, address, xs))
  {
    PutWellKeyed(Of(book, OwnerKey(address)), xs);
    hide OwnerKey;
    hide WellKeyed;
    assert WellKeyed(Put(Of(book, OwnerKey(address)), xs));
  }

  predicate NewestFirst(xs: seq<Fill>) {
    forall i, j | 0 <= i < j < |xs| :: xs[i].time >= xs[j].time
  }

  // out lists, newest first and each once, k of the fills (all when there are fewer), and
  // none left out is newer than one listed.
  ghost predicate NewestOf(out: seq<Fill>, fills: UserFills, k: nat) {
    && |out| == (if |fills| > k then k else |fills|)
    && NewestFirst(out)
    && Distinct(out)
    && (forall i | 0 <= i < |out| :: exists key | key in fills :: fills[key] == out[i])
    && (forall key, i | key in fills && fills[key] !in out && 0 <= i < |out| :: fills[key].time <= out[i].time)
  }

  predicate Distinct(xs: seq<Fill>) {
    forall i, j | 0 <= i < j < |xs| :: xs[i] != xs[j]
  }

  // Filed in front of the first fill that is not newer.
  function InsertByTime(f: Fill, xs: seq<Fill>): (r: seq<Fill>)
    ensures |r| == |xs| + 1
    ensures forall g :: g in r <==> g in xs || g == f
  {
    if xs == [] || f.time >= xs[0].time then [f] + xs
    else
      assert xs == [xs[0]] + xs[1..];
      [xs[0]] + InsertByTime(f, xs[1..])
  }

  lemma {:induction false} InsertSorted(f: Fill, xs: seq<Fill>)
    requires NewestFirst(xs)
    ensures NewestFirst(InsertByTime(f, xs))
  {
    if xs != [] && f.time < xs[0].time {
      InsertSorted(f, xs[1..]);
      var rest := InsertByTime(f, xs[1..]);
      forall g | g in rest ensures xs[0].time >= g.time {
        if g in xs[1..] {
          var i :| 0 <= i < |xs[1..]| && xs[1..][i] == g;
          assert xs[i + 1] == g;
        }
      }
      assert forall i | 0 <= i < |rest| :: rest[i] in rest;
    }
  }

  lemma {:induction false} InsertDistinct(f: Fill, xs: seq<Fill>)
    requires Distinct(xs) && f !in xs
    ensures Distinct(InsertByTime(f, xs))
  {
    if xs != [] && f.time < xs[0].time {
      InsertDistinct(f, xs[1..]);
      var rest := InsertByTime(f, xs[1..]);
      assert xs[0] !in xs[1..];
      assert forall i | 0 <= i < |rest| :: rest[i] in rest;
    }
  }

  function SortNewest(xs: seq<Fill>): (r: seq<Fill>)
    ensures |r| == |xs|
    ensures forall g :: g in r <==> g in xs
  {
    if xs == [] then []
    else
      assert xs == [xs[0]] + xs[1..];
      InsertByTime(xs[0], SortNewest(xs[1..]))
  }

  lemma {:induction false} SortNewestSorts(xs: seq<Fill>)
    ensures NewestFirst(SortNewest(xs))
    ensures Distinct(xs) ==> Distinct(SortNewest(xs))
  {
    if xs != [] {
      SortNewestSorts(xs[1..]);
      InsertSorted(xs[0], SortNewest(xs[1..]));
      if Distinct(xs) {
        assert xs[0] !in xs[1..];
        InsertDistinct(xs[0], SortNewest(xs[1..]));
      }
    }
  }

  // out lists the fills under the keys done, each once, in any order.
  ghost predicate Collected(out: seq<Fill>, fills: UserFills, done: set<string>) {
    && |out| == |done| && Distinct(out)
    && (forall k | k in done :: k in fills && fills[k] in out)
    && (forall f | f in out :: FillKey(f) in done && fills[FillKey(f)] == f)
  }

  lemma CollectOne(out: seq<Fill>, fills: UserFills, done: set<string>, k: string)
    requires WellKeyed(fills) && Collected(out, fills, done) && k in fills && k !in done
    ensures Collected(out + [fills[k]], fills, done + {k})
  {
    hide FillKey;
    assert fills[k] !in out;
  }

  lemma CollectSorted(out: seq<Fill>, fills: UserFills, done: set<string>)
    requires Collected(out, fills, done)
    ensures Collected(SortNewest(out), fills, done) && NewestFirst(SortNewest(out))
  {
    hide FillKey;
    SortNewestSorts(out);
  }

  lemma CutNewest(out: seq<Fill>, fills: UserFills, k: nat)
    requires WellKeyed(fills) && Collected(out, fills, fills.Keys) && NewestFirst(out)
    ensures NewestOf(if |out| > k then out[..k] else out, fills, k)
  {
    hide FillKey;
    var cut := if |out| > k then out[..k] else out;
    forall i | 0 <= i < |cut| ensures exists key | key in fills :: fills[key] == cut[i] {
      assert cut[i] in out;
      var key := FillKey(cut[i]);
      assert fills[key] == cut[i];
    }
    forall key, i | key in fills && fills[key] !in cut && 0 <= i < |cut|
      ensures fills[key].time <= cut[i].time
    {
      var j :| 0 <= j < |out| && out[j] == fills[key];
      assert j >= |cut|;
    }
  }

  // What the ways a fill batch can arrive do to the book.
  datatype Arrival =
    | UserFillsMessage(rawUser: string, defaultUser: string, fills: seq<Fill>, published: bool)
    | UserEventsMessage(defaultUser: string, fills: seq<Fill>, published: bool)
    | Reconciliation(user: string, answer: seq<Fill>, answered: bool)
    | HistoryRequest(user: string, answer: seq<Fill>, answered: bool)

  // A websocket batch is stored only once every fill was published; answers to a
  // reconnect or a history request are stored whenever the provider answered.
  predicate Stores(a: Arrival) {
    match a
    case UserFillsMessage(_, _, _, published) => published
    case UserEventsMessage(_, fills, published) => fills != [] && published
    case Reconciliation(_, _, answered) => answered
    case HistoryRequest(_, _, answered) => answered
  }

  function Address(a: Arrival): string {
    match a
    case UserFillsMessage(rawUser, defaultUser, _, _) => FirstNonEmpty(rawUser, defaultUser)
    case UserEventsMessage(defaultUser, _, _) => defaultUser
    case Reconciliation(user, _, _) => user
    case HistoryRequest(user, _, _) => user
  }

  function Batch(a: Arrival): seq<Fill> {
    match a
    case UserFillsMessage(_, _, fills, _) => fills
    case UserEventsMessage(_, fills, _) => fills
    case Reconciliation(_, answer, _) => answer
    case HistoryRequest(_, answer, _) => answer
  }

  function AfterArrival(book: FillBook, a: Arrival): FillBook {
    if Stores(a) then AfterAppend(book, Address(a), Batch(a)) else book
  }

  function AfterAll(book: FillBook, arrivals: seq<Arrival>): FillBook {
    if arrivals == [] then book
    else AfterArrival(AfterAll(book, arrivals[..|arrivals| - 1]), arrivals[|arrivals| - 1])
  }

  // Every fill ever stored for an address, in order: the batches of the arrivals for it,
  // outer spaces and letter case aside.
  function StoredLog(arrivals: seq<Arrival>, address: string): seq<Fill> {
    if arrivals == [] then []
    else
      var last := arrivals[|arrivals| - 1];
      StoredLog(arrivals[..|arrivals| - 1], address)
      + if Stores(last) && EqualFold(TrimSpace(Address(last)), TrimSpace(address)) then Batch(last) else []
  }

  lemma {:induction false} BookIsLog(arrivals: seq<Arrival>, address: string)
    ensures Of(AfterAll(map[], arrivals), ToLower(TrimSpace(address))) == Put(map[], StoredLog(arrivals, address))
  {
    if arrivals != [] {
      var front, last := arrivals[..|arrivals| - 1], arrivals[|arrivals| - 1];
      BookIsLog(front, address);
      AppendAdds(AfterAll(map[], front), Address(last), Batch(last));
      hide Stores;
      hide AfterAppend;
      hide TrimSpace;
      hide Address;
      hide Batch;
      if Stores(last) && EqualFold(TrimSpace(Address(last)), TrimSpace(address)) {
        PutPut(map[], StoredLog(front, address), Batch(last));
      } else {
        assert StoredLog(front, address) + [] == StoredLog(front, address);
      }
    }
  }

  // After any sequence of websocket batches, user events, reconciliations and history
  // requests an address holds exactly one fill per key ever stored for it: the last one.
  lemma OneFillPerKey(arrivals: seq<Arrival>, address: string)
    ensures var held := Of(AfterAll(map[], arrivals), ToLower(TrimSpace(address)));
            var log := StoredLog(arrivals, address);
            && WellKeyed(held)
            && (forall key :: key in held <==> KeyIn(log, key))
            && (forall key | key in held :: LastOf(log, key, held[key]))
  {
    var held, log := Of(AfterAll(map[], arrivals), ToLower(TrimSpace(address))), StoredLog(arrivals, address);
    BookIsLog(arrivals, address);
    var none: UserFills := map[];
    PutWellKeyed(none, log);
    forall key ensures key in held <==> KeyIn(log, key)
      ensures key in held ==> LastOf(log, key, held[key])
    {
      PutIs(none, log, key);
    }
  }
}
