// Stream events and the MQTT topics they are published on.
module Topics {
  import opened Text

  datatype Value = Str(s: string) | Flag(b: bool) | Other(tag: int)

  type Payload = map<string, Value>

  // The event types of the service, and any other type name.
  datatype Kind =
    | MarketTokenCreated | MarketTokenUpdated | MarketStatisticUpdate | MarketTransactionNew
    | MarketOHLCUpdated | NetworkFeeUpdated
    | TradingOrderUpdated | TradingOrderFailed | TradingOrderConfirmed
    | HypertraderOrderUpdated | HypertraderFillCreated | HypertraderOpenOrders
    | HypertraderAccountUpdated | HypertraderPositionUpdated | HypertraderFundingUpdated
    | HypertraderLedgerUpdated | HypertraderRawEvent
    | Custom(name: string)

  datatype Event = Event(
    id: string, kind: Kind, source: string, topic: string, aggregateId: string,
    userId: string, chainId: string, token: string, bucket: string,
    retain: bool, qos: nat, payload: Payload, createdAt: int)

  // s without its '#' and '+' characters.
  function StripWildcards(s: string): (r: string)
    ensures '#' !in r && '+' !in r
    ensures '#' !in s && '+' !in s ==> r == s
    ensures '/' !in s ==> '/' !in r
  {
    if s == [] then []
    else (if s[0] == '#' || s[0] == '+' then [] else [s[0]]) + StripWildcards(s[1..])
  }

  function TopicPart(value: string): string {
    StripWildcards(Trim(value, {'/', ' '}))
  }

  function NormalizeChain(chain: string): string {
    var c := TrimSpace(chain);
    var u := ToUpper(c);
    if u == "501" || u == "SOL" || u == "SOLANA" then "501"
    else if u == "1" || u == "ETH" || u == "EVM" || u == "ETHEREUM" then "1"
    else if u == "56" || u == "BSC" then "56"
    else if u == "10143" || u == "MON" || u == "MONAD" then "10143"
    else c
  }

  function NormalizeEvent(event: Event, freshId: string, now: int): Event {
    event.(
      kind := if event.kind.Custom? then Custom(TrimSpace(event.kind.name)) else event.kind,
      source := TrimSpace(event.source),
      topic := Trim(event.topic, {'/', ' '}),
      aggregateId := TrimSpace(event.aggregateId),
      userId := TrimSpace(event.userId),
      chainId := NormalizeChain(event.chainId),
      token := TrimSpace(event.token),
      bucket := TrimSpace(event.bucket),
      id := if event.id == "" then freshId else event.id,
      createdAt := if event.createdAt == 0 then now else event.createdAt,
      qos := if event.qos > 2 then 1 else event.qos)
  }

  predicate IsMemeEvent(payload: Payload) {
    || ("category" in payload && payload["category"].Str? && EqualFold(payload["category"].s, "meme"))
    || ("isMeme" in payload && payload["isMeme"].Flag? && payload["isMeme"].b)
  }

  // Events about one user go to that user's topics.
  predicate Private(kind: Kind) {
    match kind
    case MarketTokenCreated | MarketTokenUpdated | MarketStatisticUpdate | MarketTransactionNew |
         MarketOHLCUpdated | NetworkFeeUpdated | Custom(_) => false
    case _ => true
  }

  function PrivateSuffix(kind: Kind): string
    requires Private(kind)
  {
    match kind
    case TradingOrderFailed => "order_submit_failed"
    case TradingOrderConfirmed => "order_confirmation"
    case TradingOrderUpdated => "order_updated"
    case HypertraderOrderUpdated => "hypertrader/order_updated"
    case HypertraderFillCreated => "hypertrader/fill_created"
    case HypertraderOpenOrders => "hypertrader/open_orders"
    case HypertraderAccountUpdated => "hypertrader/account_updated"
    case HypertraderPositionUpdated => "hypertrader/position_updated"
    case HypertraderFundingUpdated => "hypertrader/funding_updated"
    case HypertraderLedgerUpdated => "hypertrader/ledger_updated"
    case HypertraderRawEvent => "hypertrader/event"
  }

  function PrivateTopic(userId: string, kind: Kind): string
    requires Private(kind)
  {
    "users/" + TopicPart(userId) + "/" + PrivateSuffix(kind)
  }

  function MappedTopics(event: Event): seq<string> {
    var chain, token, bucket := TopicPart(event.chainId), TopicPart(event.token), TopicPart(event.bucket);
    match event.kind
    case MarketTokenCreated =>
      ["public/token/new"] + if IsMemeEvent(event.payload) then ["public/meme/new"] else []
    case MarketTokenUpdated =>
      if chain == "" || token == "" then []
      else ["public/meme/token_info/" + chain + "/" + token, "public/token_statistic/" + chain + "/" + token]
    case MarketStatisticUpdate =>
      if chain == "" || token == "" then [] else ["public/token_statistic/" + chain + "/" + token]
    case MarketTransactionNew =>
      if chain == "" || token == "" then [] else ["public/transaction/new/" + chain + "/" + token]
    case MarketOHLCUpdated =>
      if token == "" then [] else ["public/kline/ohlc_" + (if bucket == "" then "1m" else bucket) + "/" + token]
    case NetworkFeeUpdated =>
      if chain == "" then [] else ["public/network_fee_updated/" + chain]
    case Custom(_) => []
    case _ => if event.userId == "" then [] else [PrivateTopic(event.userId, event.kind)]
  }

  function ResolveTopics(event: Event): seq<string> {
    if event.topic != "" then [event.topic] else MappedTopics(event)
  }

  // Section 4.7.1 of OASIS MQTT 3.1.1: a topic name must not hold a wildcard character.
  predicate NoWildcards(topic: string) {
    forall i | 0 <= i < |topic| :: topic[i] != '#' && topic[i] != '+'
  }

  lemma PlainJoin(a: string, b: string, c: string)
    requires NoWildcards(a) && NoWildcards(b) && NoWildcards(c)
    ensures NoWildcards(a + b) && NoWildcards(a + b + "/" + c)
  {
    assert "/"[0] == '/';
  }

  // Every topic the mapping resolves is free of wildcards, whatever the event holds.
  lemma MappedTopicsHaveNoWildcards(event: Event)
    requires event.topic == ""
    ensures forall i | 0 <= i < |ResolveTopics(event)| :: NoWildcards(ResolveTopics(event)[i])
  {
    PlainLiterals();
    PartHasNoWildcards(event.chainId);
    PartHasNoWildcards(event.token);
    PartHasNoWildcards(event.bucket);
    PartHasNoWildcards(event.userId);
    hide PrivateSuffix;
    hide TopicPart;
    hide NoWildcards;
    hide IsMemeEvent;
    var chain, token, bucket := TopicPart(event.chainId), TopicPart(event.token), TopicPart(event.bucket);
    match event.kind
    case MarketTokenCreated =>
    case MarketTokenUpdated =>
      PlainJoin("public/meme/token_info/", chain, token);
      PlainJoin("public/token_statistic/", chain, token);
    case MarketStatisticUpdate => PlainJoin("public/token_statistic/", chain, token);
    case MarketTransactionNew => PlainJoin("public/transaction/new/", chain, token);
    case MarketOHLCUpdated => PlainJoin("public/kline/ohlc_", if bucket == "" then "1m" else bucket, token);
    case NetworkFeeUpdated => PlainJoin("public/network_fee_updated/", chain, chain);
    case Custom(_) =>
    case _ =>
      SuffixHasNoWildcards(event.kind);
      PlainJoin("users/", TopicPart(event.userId), PrivateSuffix(event.kind));
  }

  // An explicit topic is published as it is: an event stays free of wildcards exactly when
  // it names no topic or one without them.
  lemma NoWildcardsIff(event: Event)
    ensures (forall i | 0 <= i < |ResolveTopics(event)| :: NoWildcards(ResolveTopics(event)[i]))
            <==> event.topic == "" || NoWildcards(event.topic)
  {
    if event.topic == "" {
      MappedTopicsHaveNoWildcards(event);
    } else {
      assert ResolveTopics(event)[0] == event.topic;
    }
    hide NoWildcards;
    hide MappedTopics;
  }

  lemma PartHasNoWildcards(value: string)
    ensures NoWildcards(TopicPart(value))
  {
  }

  lemma PlainLiterals()
    ensures NoWildcards("public/token/new") && NoWildcards("public/meme/new")
    ensures NoWildcards("public/meme/token_info/") && NoWildcards("public/token_statistic/")
    ensures NoWildcards("public/transaction/new/") && NoWildcards("public/kline/ohlc_")
    ensures NoWildcards("public/network_fee_updated/") && NoWildcards("users/")
    ensures NoWildcards("1m")
  {
  }

  lemma SuffixHasNoWildcards(kind: Kind)
    requires Private(kind)
    ensures NoWildcards(PrivateSuffix(kind))
  {
    hide NoWildcards;
    PlainTradingSuffixes();
    PlainSnapshotSuffixes();
    PlainUpdateSuffixes();
  }

  lemma PlainTradingSuffixes()
    ensures NoWildcards("order_submit_failed") && NoWildcards("order_confirmation") && NoWildcards("order_updated")
  {
  }

  lemma PlainSnapshotSuffixes()
    ensures NoWildcards("hypertrader/order_updated") && NoWildcards("hypertrader/fill_created")
    ensures NoWildcards("hypertrader/open_orders") && NoWildcards("hypertrader/event")
  {
  }

  lemma PlainUpdateSuffixes()
    ensures NoWildcards("hypertrader/account_updated") && NoWildcards("hypertrader/position_updated")
    ensures NoWildcards("hypertrader/funding_updated") && NoWildcards("hypertrader/ledger_updated")
  {
  }

  // The last level of a private topic, and whether "hypertrader" stands before it.
  function LastLevel(kind: Kind): string
    requires Private(kind)
  {
    match kind
    case TradingOrderFailed => "order_submit_failed"
    case TradingOrderConfirmed => "order_confirmation"
    case TradingOrderUpdated => "order_updated"
    case HypertraderOrderUpdated => "order_updated"
    case HypertraderFillCreated => "fill_created"
    case HypertraderOpenOrders => "open_orders"
    case HypertraderAccountUpdated => "account_updated"
    case HypertraderPositionUpdated => "position_updated"
    case HypertraderFundingUpdated => "funding_updated"
    case HypertraderLedgerUpdated => "ledger_updated"
    case HypertraderRawEvent => "event"
  }

  predicate Hyper(kind: Kind) {
    Private(kind) && !kind.TradingOrderFailed? && !kind.TradingOrderConfirmed? && !kind.TradingOrderUpdated?
  }

  // Last levels are told apart by their length and, for one pair, their first character.
  function LastLength(kind: Kind): nat
    requires Private(kind)
  {
    match kind
    case TradingOrderFailed => 19
    case TradingOrderConfirmed => 18
    case TradingOrderUpdated => 13
    case HypertraderOrderUpdated => 13
    case HypertraderFillCreated => 12
    case HypertraderOpenOrders => 11
    case HypertraderAccountUpdated => 15
    case HypertraderPositionUpdated => 16
    case HypertraderFundingUpdated => 15
    case HypertraderLedgerUpdated => 14
    case HypertraderRawEvent => 5
  }

  lemma LastLengths(kind: Kind)
    requires Private(kind)
    ensures |LastLevel(kind)| == LastLength(kind)
    ensures kind.HypertraderAccountUpdated? ==> LastLevel(kind)[0] == 'a'
    ensures kind.HypertraderFundingUpdated? ==> LastLevel(kind)[0] == 'f'
  {
  }

  lemma LastLevelsFlat(kind: Kind)
    requires Private(kind)
    ensures '/' !in LastLevel(kind)
  {
    FlatTradingLevels();
    FlatSnapshotLevels();
    FlatUpdateLevels();
  }

  lemma FlatTradingLevels()
    ensures '/' !in "order_submit_failed" && '/' !in "order_confirmation" && '/' !in "order_updated"
  {
  }

  lemma FlatSnapshotLevels()
    ensures '/' !in "fill_created" && '/' !in "open_orders" && '/' !in "event" && '/' !in "ledger_updated"
  {
  }

  lemma FlatUpdateLevels()
    ensures '/' !in "account_updated" && '/' !in "position_updated" && '/' !in "funding_updated"
  {
  }

  // Two kinds share their last level only if they are the same or the two order updates.
  lemma SameLastLevel(a: Kind, b: Kind)
    requires Private(a) && Private(b) && LastLevel(a) == LastLevel(b)
    ensures a == b || {a, b} == {TradingOrderUpdated, HypertraderOrderUpdated}
  {
    LastLengths(a);
    LastLengths(b);
    hide LastLevel;
  }

  const HYPERTRADER := "/hypertrader"

  function LevelPrefix(kind: Kind): string {
    if Hyper(kind) then HYPERTRADER else ""
  }

  lemma OrderLevels()
    ensures "/" + "hypertrader/order_updated" == HYPERTRADER + "/" + "order_updated"
    ensures "/" + "hypertrader/fill_created" == HYPERTRADER + "/" + "fill_created"
  {
  }

  lemma SnapshotLevels()
    ensures "/" + "hypertrader/open_orders" == HYPERTRADER + "/" + "open_orders"
    ensures "/" + "hypertrader/account_updated" == HYPERTRADER + "/" + "account_updated"
  {
  }

  lemma PositionLevels()
    ensures "/" + "hypertrader/position_updated" == HYPERTRADER + "/" + "position_updated"
    ensures "/" + "hypertrader/funding_updated" == HYPERTRADER + "/" + "funding_updated"
  {
  }

  lemma LedgerLevels()
    ensures "/" + "hypertrader/ledger_updated" == HYPERTRADER + "/" + "ledger_updated"
  {
  }

  lemma EventLevels()
    ensures "/" + "hypertrader/event" == HYPERTRADER + "/" + "event"
  {
  }

  lemma HyperLevels(kind: Kind)
    requires Hyper(kind)
    ensures "/" + PrivateSuffix(kind) == HYPERTRADER + "/" + LastLevel(kind)
  {
    hide HYPERTRADER;
    match kind
    case HypertraderOrderUpdated | HypertraderFillCreated => OrderLevels();
    case HypertraderOpenOrders | HypertraderAccountUpdated => SnapshotLevels();
    case HypertraderPositionUpdated | HypertraderFundingUpdated => PositionLevels();
    case HypertraderLedgerUpdated => LedgerLevels();
    case HypertraderRawEvent => EventLevels();
  }

  lemma PlainLevels(kind: Kind)
    requires Private(kind) && !Hyper(kind)
    ensures PrivateSuffix(kind) == LastLevel(kind)
  {
  }

  lemma SuffixLevels(kind: Kind)
    requires Private(kind)
    ensures "/" + PrivateSuffix(kind) == LevelPrefix(kind) + "/" + LastLevel(kind)
  {
    hide PrivateSuffix;
    hide LastLevel;
    hide Hyper;
    hide HYPERTRADER;
    if Hyper(kind) {
      HyperLevels(kind);
    } else {
      PlainLevels(kind);
      assert "" + "/" == "/";
    }
  }

  lemma Regroup(head: string, part: string, suffix: string, prefix: string, last: string)
    requires "/" + suffix == prefix + "/" + last
    ensures head + part + "/" + suffix == head + (part + prefix + ['/'] + last)
  {
    assert head + part + "/" + suffix == head + part + ("/" + suffix);
  }

  lemma TopicLevels(u: string, kind: Kind)
    requires Private(kind)
    ensures PrivateTopic(u, kind) == "users/" + (TopicPart(u) + LevelPrefix(kind) + ['/'] + LastLevel(kind))
  {
    hide PrivateSuffix;
    hide TopicPart;
    hide LastLevel;
    hide LevelPrefix;
    SuffixLevels(kind);
    Regroup("users/", TopicPart(u), PrivateSuffix(kind), LevelPrefix(kind), LastLevel(kind));
  }

  // The one way in which topics of different kinds meet: the first user's part is the
  // second's with "/hypertrader" behind it.
  predicate Shifted(part1: string, k1: Kind, part2: string, k2: Kind) {
    k1 == TradingOrderUpdated && k2 == HypertraderOrderUpdated && part1 == part2 + HYPERTRADER
  }

  lemma CancelTail(a: string, b: string, t: string)
    ensures a + t == b + t <==> a == b
  {
    if a + t == b + t {
      assert a == (a + t)[..|a|] && b == (b + t)[..|b|];
    }
  }

  lemma StemsAlike(p1: string, k1: Kind, p2: string, k2: Kind)
    requires Private(k1) && Private(k2)
    ensures p1 + LevelPrefix(k1) == p2 + LevelPrefix(k2) && LastLevel(k1) == LastLevel(k2) <==>
              (p1 == p2 && k1 == k2) || Shifted(p1, k1, p2, k2) || Shifted(p2, k2, p1, k1)
  {
    hide HYPERTRADER;
    var h := HYPERTRADER;
    CancelTail(p1, p2, LevelPrefix(k1));
    assert p1 + "" == p1 && p2 + "" == p2;
    OrderUpdatesAlike();
    hide LastLevel;
    hide Private;
    hide Hyper;
    if LastLevel(k1) == LastLevel(k2) {
      SameLastLevel(k1, k2);
    }
  }

  lemma OrderUpdatesAlike()
    ensures LastLevel(TradingOrderUpdated) == LastLevel(HypertraderOrderUpdated)
    ensures Hyper(HypertraderOrderUpdated) && !Hyper(TradingOrderUpdated)
  {
  }

  // Exactly when two private topics are the same.
  lemma PrivateTopicsMeetIff(u1: string, k1: Kind, u2: string, k2: Kind)
    requires Private(k1) && Private(k2)
    ensures var p1, p2 := TopicPart(u1), TopicPart(u2);
            PrivateTopic(u1, k1) == PrivateTopic(u2, k2) <==>
              (p1 == p2 && k1 == k2) || Shifted(p1, k1, p2, k2) || Shifted(p2, k2, p1, k1)
  {
    hide *;
    var p1, p2 := TopicPart(u1), TopicPart(u2);
    TopicLevels(u1, k1);
    TopicLevels(u2, k2);
    LastLevelsFlat(k1);
    LastLevelsFlat(k2);
    StemsAlike(p1, k1, p2, k2);
    if PrivateTopic(u1, k1) == PrivateTopic(u2, k2) {
      StemsMeet(p1 + LevelPrefix(k1), LastLevel(k1), p2 + LevelPrefix(k2), LastLevel(k2));
    }
  }

  lemma StemsMeet(s1: string, l1: string, s2: string, l2: string)
    requires '/' !in l1 && '/' !in l2
    requires "users/" + (s1 + ['/'] + l1) == "users/" + (s2 + ['/'] + l2)
    ensures s1 == s2 && l1 == l2
  {
    assert ("users/" + (s1 + ['/'] + l1))[6..] == s1 + ['/'] + l1;
    assert ("users/" + (s2 + ['/'] + l2))[6..] == s2 + ['/'] + l2;
    SplitAtLast(s1, l1, s2, l2, '/');
  }

  // One of the private topics of user v.
  ghost predicate OwnTopic(v: string, topic: string) {
    exists k | Private(k) :: topic == PrivateTopic(v, k)
  }

  // The event is published on a private topic of user v.
  ghost predicate Reaches(event: Event, v: string) {
    exists i | 0 <= i < |ResolveTopics(event)| :: OwnTopic(v, ResolveTopics(event)[i])
  }

  // The parts of two users are related in a way that brings the first's events of this
  // kind to the second.
  predicate PartsMeet(u: string, kind: Kind, v: string) {
    var p, q := TopicPart(u), TopicPart(v);
    || p == q
    || (kind == TradingOrderUpdated && p == q + HYPERTRADER)
    || (kind == HypertraderOrderUpdated && q == p + HYPERTRADER)
  }

  lemma MappedReachesIff(u: string, kind: Kind, v: string)
    requires Private(kind)
    ensures OwnTopic(v, PrivateTopic(u, kind)) <==> PartsMeet(u, kind, v)
  {
    PrivateTopicsMeetIff(u, kind, v, kind);
    PrivateTopicsMeetIff(u, kind, v, HypertraderOrderUpdated);
    PrivateTopicsMeetIff(u, kind, v, TradingOrderUpdated);
    hide PrivateTopic;
    hide TopicPart;
    hide HYPERTRADER;
    if k :| Private(k) && PrivateTopic(u, kind) == PrivateTopic(v, k) {
      PrivateTopicsMeetIff(u, kind, v, k);
    }
  }

  lemma PrivateTopicHead(v: string, kind: Kind)
    requires Private(kind)
    ensures |PrivateTopic(v, kind)| > 0 && PrivateTopic(v, kind)[0] == 'u'
  {
    hide TopicPart;
    hide PrivateSuffix;
  }

  lemma OwnTopicHead(v: string, topic: string)
    requires OwnTopic(v, topic)
    ensures |topic| > 0 && topic[0] == 'u'
  {
    hide PrivateTopic;
    var k :| Private(k) && topic == PrivateTopic(v, k);
    PrivateTopicHead(v, k);
  }

  lemma PublicHeads(event: Event)
    requires !Private(event.kind)
    ensures forall i | 0 <= i < |MappedTopics(event)| ::
              |MappedTopics(event)[i]| > 0 && MappedTopics(event)[i][0] == 'p'
  {
    hide TopicPart;
    hide IsMemeEvent;
  }

  // Exactly when an event reaches a private topic of user v, for every event and user: an
  // explicit topic is v's own, or without one the user ids of a private event meet v's.
  lemma ReachesIff(event: Event, v: string)
    ensures Reaches(event, v) <==>
              if event.topic != "" then OwnTopic(v, event.topic)
              else Private(event.kind) && event.userId != "" && PartsMeet(event.userId, event.kind, v)
  {
    if event.topic != "" {
      assert ResolveTopics(event)[0] == event.topic;
    } else if Private(event.kind) {
      PrivateMapped(event);
      MappedReachesIff(event.userId, event.kind, v);
      if event.userId != "" {
        assert ResolveTopics(event)[0] == PrivateTopic(event.userId, event.kind);
      }
    } else {
      PublicHeads(event);
      forall i | 0 <= i < |ResolveTopics(event)| ensures !OwnTopic(v, ResolveTopics(event)[i]) {
        if OwnTopic(v, ResolveTopics(event)[i]) {
          OwnTopicHead(v, ResolveTopics(event)[i]);
        }
      }
    }
    hide MappedTopics;
    hide OwnTopic;
    hide PartsMeet;
    hide PrivateTopic;
    hide Private;
  }

  lemma PrivateMapped(event: Event)
    requires Private(event.kind)
    ensures MappedTopics(event) == if event.userId == "" then [] else [PrivateTopic(event.userId, event.kind)]
  {
    hide PrivateTopic;
  }

  // An event of user u that leaves the choice of its topic to the mapping.
  predicate MappedEventOf(event: Event, u: string) {
    Private(event.kind) && event.topic == "" && event.userId == u
  }

  // Exactly when two users share a topic that the mapping resolves: both have an id, and
  // their parts are equal, which dropped wildcards and outer slashes can make them, or one
  // is the other with "/hypertrader" behind it.
  lemma UsersShareTopicIff(u1: string, u2: string)
    ensures (exists a, b | MappedEventOf(a, u1) && MappedEventOf(b, u2) ::
               ResolveTopics(a) != [] && ResolveTopics(a) == ResolveTopics(b))
            <==> var p1, p2 := TopicPart(u1), TopicPart(u2);
                 u1 != "" && u2 != "" && (p1 == p2 || p1 == p2 + HYPERTRADER || p2 == p1 + HYPERTRADER)
  {
    hide PrivateTopic;
    hide TopicPart;
    hide HYPERTRADER;
    hide MappedTopics;
    if a, b :| MappedEventOf(a, u1) && MappedEventOf(b, u2) && ResolveTopics(a) != []
               && ResolveTopics(a) == ResolveTopics(b) {
      PrivateMapped(a);
      PrivateMapped(b);
      assert ResolveTopics(a)[0] == ResolveTopics(b)[0];
      PrivateTopicsMeetIff(u1, a.kind, u2, b.kind);
    }
    if u1 != "" && u2 != "" {
      var t, h := TradingOrderUpdated, HypertraderOrderUpdated;
      PrivateTopicsMeetIff(u1, t, u2, t);
      PrivateTopicsMeetIff(u1, t, u2, h);
      PrivateTopicsMeetIff(u1, h, u2, t);
      forall k, l | Private(k) && Private(l) && PrivateTopic(u1, k) == PrivateTopic(u2, l)
        ensures exists a, b | MappedEventOf(a, u1) && MappedEventOf(b, u2) ::
                  ResolveTopics(a) != [] && ResolveTopics(a) == ResolveTopics(b)
      {
        var a, b := PlainEvent(k, u1), PlainEvent(l, u2);
        PrivateMapped(a);
        PrivateMapped(b);
        assert MappedEventOf(a, u1) && MappedEventOf(b, u2);
      }
    }
  }

  function PlainEvent(kind: Kind, userId: string): Event {
    Event("", kind, "", "", "", userId, "", "", "", false, 0, map[], 0)
  }

  const ALICE := "alice"
  const BOB := "bob"
  const BOBS_TOPIC := "users/bob/hypertrader/order_updated"

  // An explicit topic reaches whom it names, whoever the event is about: these two users'
  // parts are unrelated, and the event about one is published to the other.
  lemma ExplicitTopicCrosses(event: Event, freshId: string, now: int)
    requires event.kind == HypertraderOrderUpdated && event.userId == ALICE && event.topic == BOBS_TOPIC
    ensures var e := NormalizeEvent(event, freshId, now);
            && e.userId == ALICE && e.kind == HypertraderOrderUpdated
            && ResolveTopics(e) == [PrivateTopic(BOB, HypertraderOrderUpdated)]
            && Reaches(e, BOB) && !PartsMeet(ALICE, HypertraderOrderUpdated, BOB)
  {
    hide *;
    var e := NormalizeEvent(event, freshId, now);
    NamesTrimmed();
    NormalizedKeeps(event, freshId, now);
    BobsTopic();
    AliceAndBob();
    OwnTopicAt(BOB, HypertraderOrderUpdated);
    ReachesIff(e, BOB);
    ExplicitResolves(e);
  }

  lemma NamesTrimmed()
    ensures Trim(BOBS_TOPIC, {'/', ' '}) == BOBS_TOPIC != "" && TrimSpace(ALICE) == ALICE
  {
    TrimmedIffFixed(BOBS_TOPIC, {'/', ' '});
    TrimmedIffFixed(ALICE, WHITESPACE);
    hide Trim;
  }

  lemma NormalizedKeeps(event: Event, freshId: string, now: int)
    requires Trim(event.topic, {'/', ' '}) == event.topic && TrimSpace(event.userId) == event.userId
    requires !event.kind.Custom?
    ensures var e := NormalizeEvent(event, freshId, now);
            e.kind == event.kind && e.topic == event.topic && e.userId == event.userId
  {
    hide Trim;
    hide TrimSpace;
    hide NormalizeChain;
  }

  lemma ExplicitResolves(event: Event)
    requires event.topic != ""
    ensures ResolveTopics(event) == [event.topic]
  {
  }

  lemma OwnTopicAt(v: string, kind: Kind)
    requires Private(kind)
    ensures OwnTopic(v, PrivateTopic(v, kind))
  {
    hide PrivateTopic;
  }

  lemma BobsTopic()
    ensures PrivateTopic(BOB, HypertraderOrderUpdated) == BOBS_TOPIC && Private(HypertraderOrderUpdated)
  {
    BobIsPlain();
    hide TopicPart;
  }

  lemma BobIsPlain()
    ensures TopicPart(BOB) == BOB
  {
    PlainPart(BOB);
    hide TopicPart;
  }

  lemma AliceIsPlain()
    ensures TopicPart(ALICE) == ALICE
  {
    PlainPart(ALICE);
    hide TopicPart;
  }

  lemma AliceAndBob()
    ensures !PartsMeet(ALICE, HypertraderOrderUpdated, BOB)
  {
    BobIsPlain();
    AliceIsPlain();
    assert |BOB| == 3 && |ALICE| == 5;
    hide ALICE;
    hide BOB;
    hide TopicPart;
    hide HYPERTRADER;
    assert |ALICE + HYPERTRADER| >= 5;
  }

  // Dropped wildcards alone can make two users' parts equal: no '/' is needed.
  lemma WildcardsCollide(u: string)
    requires PlainUser(u)
    ensures TopicPart(u + "#") == TopicPart(u) && u + "#" != u
  {
    PlainPart(u);
    var w := u + "#";
    assert w[0] == u[0] && w[|w| - 1] == '#';
    assert u[0] in u && u[0] != '/';
    TrimmedIffFixed(w, {'/', ' '});
    StripAppended(u);
  }

  lemma {:induction false} StripAppended(u: string)
    ensures StripWildcards(u + "#") == StripWildcards(u)
  {
    if u == [] {
      assert u + "#" == "#" && "#"[1..] == [];
    } else {
      assert (u + "#")[0] == u[0] && (u + "#")[1..] == u[1..] + "#";
      StripAppended(u[1..]);
    }
  }

  // For user parts without '/' two private topics are the same exactly when user part and
  // event kind are.
  lemma PrivateTopicInjective(u1: string, k1: Kind, u2: string, k2: Kind)
    requires Private(k1) && Private(k2)
    requires '/' !in TopicPart(u1) && '/' !in TopicPart(u2)
    ensures PrivateTopic(u1, k1) == PrivateTopic(u2, k2) <==> TopicPart(u1) == TopicPart(u2) && k1 == k2
  {
    hide *;
    PrivateTopicsMeetIff(u1, k1, u2, k2);
    FlatNotShifted(TopicPart(u1), k1, TopicPart(u2), k2);
    FlatNotShifted(TopicPart(u2), k2, TopicPart(u1), k1);
  }

  lemma FlatNotShifted(p1: string, k1: Kind, p2: string, k2: Kind)
    requires '/' !in p1
    ensures !Shifted(p1, k1, p2, k2)
  {
    assert HYPERTRADER[0] == '/';
    hide HYPERTRADER;
    assert (p2 + HYPERTRADER)[|p2|] == '/';
  }

  // For the same event kind the whole topic decides the user part, slashes or not.
  lemma SameKindTopic(u1: string, u2: string, kind: Kind)
    requires Private(kind)
    ensures PrivateTopic(u1, kind) == PrivateTopic(u2, kind) <==> TopicPart(u1) == TopicPart(u2)
  {
    PrivateTopicsMeetIff(u1, kind, u2, kind);
    hide PrivateTopic;
    hide TopicPart;
  }

  predicate PlainUser(u: string) {
    u != "" && '/' !in u && NoWildcards(u) && u[0] != ' ' && u[|u| - 1] != ' '
  }

  lemma PlainPart(u: string)
    requires PlainUser(u)
    ensures TopicPart(u) == u
  {
    assert u[0] in u && u[|u| - 1] in u;
    TrimmedIffFixed(u, {'/', ' '});
  }

  // User ids free of '/', '#', '+' and outer spaces: two private events resolve alike
  // exactly when they name the same topic, or neither names one and they agree on user and
  // type, or one names the other's topic.
  lemma PlainUsersResolveApart(a: Event, b: Event)
    requires PlainUser(a.userId) && PlainUser(b.userId) && Private(a.kind) && Private(b.kind)
    ensures ResolveTopics(a) == ResolveTopics(b) <==>
              || (a.topic != "" && a.topic == b.topic)
              || (a.topic == "" && b.topic == "" && a.userId == b.userId && a.kind == b.kind)
              || (a.topic == "" && b.topic == PrivateTopic(a.userId, a.kind))
              || (b.topic == "" && a.topic == PrivateTopic(b.userId, b.kind))
  {
    PlainPart(a.userId);
    PlainPart(b.userId);
    PrivateTopicInjective(a.userId, a.kind, b.userId, b.kind);
    PrivateTopicHead(a.userId, a.kind);
    PrivateTopicHead(b.userId, b.kind);
    PrivateMapped(a);
    PrivateMapped(b);
    hide PrivateTopic;
    hide Private;
    hide TopicPart;
    hide MappedTopics;
    assert ResolveTopics(a) == ResolveTopics(b) <==> ResolveTopics(a)[0] == ResolveTopics(b)[0];
  }

  // ... and a private event about one such user reaches another only by naming one of their
  // topics.
  lemma PlainUserReachedIff(event: Event, v: string)
    requires PlainUser(event.userId) && PlainUser(v) && Private(event.kind) && event.userId != v
    ensures Reaches(event, v) <==> OwnTopic(v, event.topic)
  {
    PlainPart(event.userId);
    PlainPart(v);
    assert HYPERTRADER[0] == '/';
    assert (v + HYPERTRADER)[|v|] == '/' && (event.userId + HYPERTRADER)[|event.userId|] == '/';
    hide HYPERTRADER;
    ReachesIff(event, v);
    if OwnTopic(v, event.topic) {
      OwnTopicHead(v, event.topic);
    }
    hide TopicPart;
    hide Reaches;
    hide OwnTopic;
  }

  // Without the restriction two users can share a topic: the '/' inside one user's id
  // plays the part of the separator.
  lemma SlashedUsersCollide()
    ensures PrivateTopic("u/hypertrader", TradingOrderUpdated) == PrivateTopic("u", HypertraderOrderUpdated)
  {
    SlashedPart();
    hide TopicPart;
    hide PrivateTopic;
    assert "u/hypertrader" == "u" + HYPERTRADER;
    PrivateTopicsMeetIff("u/hypertrader", TradingOrderUpdated, "u", HypertraderOrderUpdated);
  }

  lemma SlashedPart()
    ensures TopicPart("u") == "u" && TopicPart("u/hypertrader") == "u/hypertrader"
  {
    TrimmedIffFixed("u", {'/', ' '});
    TrimmedIffFixed("u/hypertrader", {'/', ' '});
    StripPlain("u");
    StripPlain("u/hypertrader");
  }

  lemma StripPlain(s: string)
    requires NoWildcards(s)
    ensures StripWildcards(s) == s
  {
  }
}
