// Where each type of event goes: the levels of its topics, and what its envelopes carry.
module Routes {
  import opened Text
  import opened Topics

  // The topic with these levels.
  function Path(levels: seq<string>): string {
    if levels == [] then ""
    else if |levels| == 1 then levels[0]
    else levels[0] + "/" + Path(levels[1..])
  }

  // Solana, Ethereum, BSC and Monad go by their codes, any other chain by its own name.
  ghost predicate ChainCode(chain: string, code: string) {
    var c := ToUpper(TrimSpace(chain));
    && (code == "501" <==> c in {"501", "SOL", "SOLANA"})
    && (code == "1" <==> c in {"1", "ETH", "EVM", "ETHEREUM"})
    && (code == "56" <==> c in {"56", "BSC"})
    && (code == "10143" <==> c in {"10143", "MON", "MONAD"})
    && (code !in {"501", "1", "56", "10143"} ==> code == TrimSpace(chain))
  }

  ghost predicate SaysMeme(payload: Payload) {
    || (exists s :: "category" in payload && payload["category"] == Str(s) && EqualFold(s, "meme"))
    || ("isMeme" in payload && payload["isMeme"] == Flag(true))
  }

  // The levels of a user's topic for one type of event, below "users" and the user.
  function UserLevels(kind: Kind): seq<string>
    requires Private(kind)
  {
    match kind
    case TradingOrderUpdated => ["order_updated"]
    case TradingOrderFailed => ["order_submit_failed"]
    case TradingOrderConfirmed => ["order_confirmation"]
    case HypertraderOrderUpdated => ["hypertrader", "order_updated"]
    case HypertraderFillCreated => ["hypertrader", "fill_created"]
    case HypertraderOpenOrders => ["hypertrader", "open_orders"]
    case HypertraderAccountUpdated => ["hypertrader", "account_updated"]
    case HypertraderPositionUpdated => ["hypertrader", "position_updated"]
    case HypertraderFundingUpdated => ["hypertrader", "funding_updated"]
    case HypertraderLedgerUpdated => ["hypertrader", "ledger_updated"]
    case HypertraderRawEvent => ["hypertrader", "event"]
  }

  // The levels of the topics of an event that names none, from its type and its parts; an
  // event that lacks a part its topic needs goes nowhere.
  function Levels(kind: Kind, meme: bool, user: string, chain: string, token: string, bucket: string)
    : seq<seq<string>>
  {
    match kind
    case MarketTokenCreated =>
      [["public", "token", "new"]] + if meme then [["public", "meme", "new"]] else []
    case MarketTokenUpdated =>
      if chain == "" || token == "" then []
      else [["public", "meme", "token_info", chain, token], ["public", "token_statistic", chain, token]]
    case MarketStatisticUpdate =>
      if chain == "" || token == "" then [] else [["public", "token_statistic", chain, token]]
    case MarketTransactionNew =>
      if chain == "" || token == "" then [] else [["public", "transaction", "new", chain, token]]
    case MarketOHLCUpdated =>
      if token == "" then [] else [["public", "kline", "ohlc_" + (if bucket == "" then "1m" else bucket), token]]
    case NetworkFeeUpdated =>
      if chain == "" then [] else [["public", "network_fee_updated", chain]]
    case Custom(_) => []
    case _ => if user == "" then [] else [["users", TopicPart(user)] + UserLevels(kind)]
  }

  function Paths(levels: seq<seq<string>>): (topics: seq<string>)
    ensures |topics| == |levels|
    ensures forall i | 0 <= i < |levels| :: topics[i] == Path(levels[i])
  {
    seq(|levels|, i requires 0 <= i < |levels| => Path(levels[i]))
  }

  lemma PathMore(a: string, rest: seq<string>)
    requires rest != []
    ensures Path([a] + rest) == a + "/" + Path(rest)
  {
    assert ([a] + rest)[1..] == rest;
  }

  lemma PathTwo(a: string, b: string)
    ensures Path([a, b]) == a + "/" + b
  {
    PathMore(a, [b]);
    assert [a] + [b] == [a, b];
  }

  lemma PathThree(a: string, b: string, c: string)
    ensures Path([a, b, c]) == a + "/" + b + "/" + c
  {
    PathMore(a, [b, c]);
    PathTwo(b, c);
    hide Path;
    assert [a] + [b, c] == [a, b, c];
  }

  lemma PathFour(a: string, b: string, c: string, d: string)
    ensures Path([a, b, c, d]) == a + "/" + b + "/" + c + "/" + d
  {
    PathMore(a, [b, c, d]);
    PathThree(b, c, d);
    hide Path;
    assert [a] + [b, c, d] == [a, b, c, d];
  }

  lemma PathFive(a: string, b: string, c: string, d: string, e: string)
    ensures Path([a, b, c, d, e]) == a + "/" + b + "/" + c + "/" + d + "/" + e
  {
    PathMore(a, [b, c, d, e]);
    PathFour(b, c, d, e);
    hide Path;
    assert [a] + [b, c, d, e] == [a, b, c, d, e];
  }

  lemma NewTopics()
    ensures Path(["public", "token", "new"]) == "public/token/new"
    ensures Path(["public", "meme", "new"]) == "public/meme/new"
  {
    PathThree("public", "token", "new");
    PathThree("public", "meme", "new");
    hide Path;
    assert "public" + "/" + "token" + "/" + "new" == "public/token/new";
    assert "public" + "/" + "meme" + "/" + "new" == "public/meme/new";
  }

  lemma TokenTopics(chain: string, token: string)
    ensures Path(["public", "meme", "token_info", chain, token]) == "public/meme/token_info/" + chain + "/" + token
    ensures Path(["public", "token_statistic", chain, token]) == "public/token_statistic/" + chain + "/" + token
  {
    PathFive("public", "meme", "token_info", chain, token);
    PathFour("public", "token_statistic", chain, token);
    hide Path;
    assert "public" + "/" + "meme" + "/" + "token_info" + "/" == "public/meme/token_info/";
    assert "public" + "/" + "token_statistic" + "/" == "public/token_statistic/";
  }

  lemma TransactionTopic(chain: string, token: string)
    ensures Path(["public", "transaction", "new", chain, token]) == "public/transaction/new/" + chain + "/" + token
  {
    PathFive("public", "transaction", "new", chain, token);
    hide Path;
    assert "public" + "/" + "transaction" + "/" + "new" + "/" == "public/transaction/new/";
  }

  lemma KlineTopic(token: string, bucket: string)
    ensures Path(["public", "kline", "ohlc_" + bucket, token]) == "public/kline/ohlc_" + bucket + "/" + token
  {
    PathFour("public", "kline", "ohlc_" + bucket, token);
    hide Path;
    assert "public" + "/" + "kline" + "/" + ("ohlc_" + bucket) == "public/kline/ohlc_" + bucket;
  }

  lemma FeeTopic(chain: string)
    ensures Path(["public", "network_fee_updated", chain]) == "public/network_fee_updated/" + chain
  {
    PathThree("public", "network_fee_updated", chain);
    hide Path;
    assert "public" + "/" + "network_fee_updated" + "/" == "public/network_fee_updated/";
  }

  lemma SuffixPath(kind: Kind)
    requires Private(kind)
    ensures Path(UserLevels(kind)) == PrivateSuffix(kind)
  {
    if Hyper(kind) {
      HyperPath(kind);
    } else {
      hide TopicPart;
    }
  }

  const HYPER := "hypertrader"

  lemma HyperUserLevels(kind: Kind)
    requires Hyper(kind)
    ensures UserLevels(kind) == [HYPER, LastLevel(kind)]
  {
  }

  lemma HyperSlash()
    ensures HYPERTRADER == "/" + HYPER
  {
  }

  lemma Regrouped(a: string, b: string, c: string, d: string)
    ensures a + b + c + d == a + (b + c + d)
  {
  }

  lemma DropSlash(a: string, b: string)
    requires "/" + a == "/" + b
    ensures a == b
  {
    assert ("/" + a)[1..] == a && ("/" + b)[1..] == b;
  }

  lemma HyperPath(kind: Kind)
    requires Hyper(kind)
    ensures Path(UserLevels(kind)) == PrivateSuffix(kind)
  {
    HyperLevels(kind);
    HyperUserLevels(kind);
    HyperSlash();
    hide *;
    var last := LastLevel(kind);
    PathTwo(HYPER, last);
    Regrouped("/", HYPER, "/", last);
    DropSlash(PrivateSuffix(kind), HYPER + "/" + last);
  }

  lemma UserPath(user: string, kind: Kind)
    requires Private(kind)
    ensures Path(["users", TopicPart(user)] + UserLevels(kind)) == PrivateTopic(user, kind)
  {
    SuffixPath(kind);
    assert UserLevels(kind) != [];
    hide TopicPart;
    hide PrivateSuffix;
    hide UserLevels;
    hide Path;
    var part, rest := TopicPart(user), UserLevels(kind);
    PathMore(part, rest);
    PathMore("users", [part] + rest);
    assert ["users"] + ([part] + rest) == ["users", part] + rest;
    assert "users" + "/" + (part + "/" + PrivateSuffix(kind)) == "users/" + part + "/" + PrivateSuffix(kind);
  }

  lemma MemeIff(payload: Payload)
    ensures IsMemeEvent(payload) <==> SaysMeme(payload)
  {
    hide EqualFold;
  }

  lemma PublicMapped(event: Event)
    requires !Private(event.kind)
    ensures MappedTopics(event) ==
            Paths(Levels(event.kind, SaysMeme(event.payload), event.userId, TopicPart(event.chainId),
                         TopicPart(event.token), TopicPart(event.bucket)))
  {
    var chain, token, bucket := TopicPart(event.chainId), TopicPart(event.token), TopicPart(event.bucket);
    MemeIff(event.payload);
    hide Path;
    hide IsMemeEvent;
    hide SaysMeme;
    hide TopicPart;
    match event.kind
    case MarketTokenCreated => NewTopics();
    case MarketTokenUpdated => TokenTopics(chain, token);
    case MarketStatisticUpdate => TokenTopics(chain, token);
    case MarketTransactionNew => TransactionTopic(chain, token);
    case MarketOHLCUpdated => KlineTopic(token, if bucket == "" then "1m" else bucket);
    case NetworkFeeUpdated => FeeTopic(chain);
    case Custom(_) =>
  }

  // Every event that names no topic goes to exactly the topics with those levels.
  lemma MappedAre(event: Event)
    ensures MappedTopics(event) ==
            Paths(Levels(event.kind, SaysMeme(event.payload), event.userId, TopicPart(event.chainId),
                         TopicPart(event.token), TopicPart(event.bucket)))
  {
    if Private(event.kind) {
      PrivateMapped(event);
      UserPath(event.userId, event.kind);
      PrivateLevels(event, TopicPart(event.chainId), TopicPart(event.token), TopicPart(event.bucket));
    } else {
      PublicMapped(event);
    }
    hide *;
  }

  lemma PrivateLevels(event: Event, chain: string, token: string, bucket: string)
    requires Private(event.kind)
    ensures Levels(event.kind, SaysMeme(event.payload), event.userId, chain, token, bucket) ==
              if event.userId == "" then [] else [["users", TopicPart(event.userId)] + UserLevels(event.kind)]
  {
    hide TopicPart;
    hide UserLevels;
  }

  lemma UpperIs(s: string)
    requires forall i | 0 <= i < |s| :: UpperChar(s[i]) == s[i]
    ensures ToUpper(s) == s
  {
    assert forall i | 0 <= i < |s| :: ToUpper(s)[i] == s[i];
  }

  lemma CodesUpper()
    ensures ToUpper("501") == "501" && ToUpper("1") == "1" && ToUpper("56") == "56" && ToUpper("10143") == "10143"
  {
    hide ToUpper;
    UpperIs("501");
    UpperIs("1");
    UpperIs("56");
    UpperIs("10143");
  }

  lemma ChainIsCode(chain: string)
    ensures ChainCode(chain, NormalizeChain(chain))
  {
    CodesUpper();
    CodesApart();
    hide TrimSpace;
    hide ToUpper;
  }

  lemma CodesApart()
    ensures |"501"| == 3 && |"1"| == 1 && |"56"| == 2 && |"10143"| == 5
  {
  }

  function Kept(c: char): string {
    if c == '#' || c == '+' then "" else [c]
  }

  lemma StripHead(c: char, b: string)
    ensures StripWildcards([c] + b) == Kept(c) + StripWildcards(b)
  {
    assert ([c] + b)[0] == c && ([c] + b)[1..] == b;
  }

  lemma StripNone()
    ensures StripWildcards("") == ""
  {
  }

  lemma FirstApart(a: string, c: char, b: string)
    requires a != ""
    ensures a + [c] + b == [a[0]] + (a[1..] + [c] + b) && a == [a[0]] + a[1..]
  {
  }

  // The part of a topic that stands for a value: the value without its outer slashes and
  // spaces, and of what is left every character but '#' and '+', in order.
  lemma {:induction false} StripEach(a: string, c: char, b: string)
    ensures StripWildcards(a + [c] + b) == StripWildcards(a) + Kept(c) + StripWildcards(b)
  {
    hide StripWildcards;
    StripHead(c, b);
    if a == "" {
      StripNone();
      assert "" + [c] + b == [c] + b;
    } else {
      hide Kept;
      StripEach(a[1..], c, b);
      FirstApart(a, c, b);
      StripHead(a[0], a[1..] + [c] + b);
      StripHead(a[0], a[1..]);
      Regrouped(Kept(a[0]), StripWildcards(a[1..]), Kept(c), StripWildcards(b));
    }
  }

  // So outer slashes and spaces never count.
  lemma PartOfPadded(head: string, value: string, tail: string)
    requires AllIn(head, {'/', ' '}) && AllIn(tail, {'/', ' '})
    requires value != "" && value[0] !in {'/', ' '} && value[|value| - 1] !in {'/', ' '}
    ensures TopicPart(head + value + tail) == StripWildcards(value)
  {
    TrimFinds(head, value, tail, {'/', ' '});
    hide Trim;
    hide StripWildcards;
  }

  // Where an event goes as it was handed in, before any of its fields is cleaned up.
  ghost predicate GoesTo(event: Event, topics: seq<string>) {
    var named := Trim(event.topic, {'/', ' '});
    if named != "" then topics == [named]
    else exists code ::
      && ChainCode(event.chainId, code)
      && topics == Paths(Levels(event.kind, SaysMeme(event.payload), TrimSpace(event.userId), TopicPart(code),
                                TopicPart(TrimSpace(event.token)), TopicPart(TrimSpace(event.bucket))))
  }

  lemma NormalizedFields(event: Event, freshId: string, now: int)
    ensures var e := NormalizeEvent(event, freshId, now);
            && (e.kind == event.kind || (e.kind.Custom? && event.kind.Custom?))
            && e.topic == Trim(event.topic, {'/', ' '}) && e.userId == TrimSpace(event.userId)
            && e.chainId == NormalizeChain(event.chainId) && e.token == TrimSpace(event.token)
            && e.bucket == TrimSpace(event.bucket) && e.payload == event.payload
  {
    hide Trim;
    hide TrimSpace;
    hide NormalizeChain;
  }

  lemma ResolvesTo(event: Event, freshId: string, now: int)
    ensures GoesTo(event, ResolveTopics(NormalizeEvent(event, freshId, now)))
  {
    var e := NormalizeEvent(event, freshId, now);
    NormalizedFields(event, freshId, now);
    MappedAre(e);
    ChainIsCode(event.chainId);
    SameLevels(e, event.kind);
    hide NormalizeEvent;
    hide NormalizeChain;
    hide MappedTopics;
    hide Levels;
    hide ChainCode;
    hide SaysMeme;
    hide Trim;
    hide TrimSpace;
    hide TopicPart;
  }

  lemma SameLevels(e: Event, kind: Kind)
    requires e.kind == kind || (e.kind.Custom? && kind.Custom?)
    ensures forall meme, user, chain, token, bucket ::
              Levels(e.kind, meme, user, chain, token, bucket) == Levels(kind, meme, user, chain, token, bucket)
  {
    hide TopicPart;
    hide UserLevels;
  }
}
