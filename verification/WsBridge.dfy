// The websocket bridge: what exchange messages do to the store and to the stream.
module WsBridge {
  import opened Results
  import opened Clock
  import opened Text
  import Runs
  import Topics
  import opened Orders
  import OrderRuns
  import opened Fills
  import opened HyperStore
  import StreamRuns
  import Routes
  import opened StreamService

  const PROVIDER := "hyperliquid-ws"

  datatype HistoryError = ProviderFailed

  // One decoded item of an order update message.
  datatype OrderItem = OrderItem(symbol: string, report: StatusReport, payload: Topics.Payload)

  // One decoded fill with the payload it is published with.
  datatype FillItem = FillItem(fill: Fill, aggregateId: string, payload: Topics.Payload, createdAt: Time)

  function WsEvent(kind: Topics.Kind, user: string, aggregateId: string,
                   payload: Topics.Payload, createdAt: Time): Topics.Event {
    Topics.Event("", kind, PROVIDER, "", aggregateId, user, "", "", "", false, 0, payload, createdAt)
  }

  function OrderEvent(user: string, item: OrderItem): Topics.Event {
    WsEvent(Topics.HypertraderOrderUpdated, user, item.report.providerOrderId, item.payload, item.report.updatedAt)
  }

  function FillEvent(user: string, item: FillItem): Topics.Event {
    WsEvent(Topics.HypertraderFillCreated, user, item.aggregateId, item.payload, item.createdAt)
  }

  function OrderEvents(user: string, items: seq<OrderItem>): seq<Topics.Event> {
    seq(|items|, i requires 0 <= i < |items| => OrderEvent(user, items[i]))
  }

  function FillEvents(user: string, items: seq<FillItem>): seq<Topics.Event> {
    seq(|items|, i requires 0 <= i < |items| => FillEvent(user, items[i]))
  }

  function FillsOf(items: seq<FillItem>): seq<Fill> {
    seq(|items|, i requires 0 <= i < |items| => items[i].fill)
  }

  function InputOf(user: string, item: OrderItem): StatusInput {
    StatusInput("", user, "", item.report.providerOrderId, item.report.cloid, item.symbol)
  }

  // The protocol steps of storing the given order items, one report each.
  function ReportSteps(user: string, items: seq<OrderItem>, now: Time): seq<OrderRuns.Step> {
    seq(|items|, i requires 0 <= i < |items| => OrderRuns.WsReport(InputOf(user, items[i]), items[i].report, now))
  }

  // The maps between the reports of one user's items, in order: each report has landed on
  // the orders it names that are not another user's.
  ghost predicate ItemsLanded(maps: seq<OrderMap>, user: string, items: seq<OrderItem>, now: Time) {
    && |maps| == |items| + 1
    && forall i | 0 <= i < |items| :: ReportLanded(maps[i], maps[i + 1], user, "", items[i].report, now)
  }

  // An order of another user, or one that none of the items names, is as it was.
  ghost predicate OthersKept(before: OrderMap, after: OrderMap, user: string, items: seq<OrderItem>) {
    && after.Keys == before.Keys
    && forall id | id in before ::
         OtherOwner(before[id], user, "") || (forall i | 0 <= i < |items| :: !Names(items[i].report, before[id])) ==>
           after[id] == before[id]
  }

  // The result of publishing something about a user: one envelope, on the user's topic with
  // the given last level, for the user, about the given aggregate.
  ghost predicate SentTo(result: PublishResult, user: string, level: string, aggregateId: string,
                         payload: Topics.Payload) {
    && result.topics == [Routes.Path(["users", Topics.TopicPart(TrimSpace(user)), "hypertrader", level])]
    && |result.envelopes| == 1 && result.envelopes[0].topic == result.topics[0]
    && result.envelopes[0].userId == TrimSpace(user) && result.envelopes[0].source == PROVIDER
    && result.envelopes[0].aggregateId == TrimSpace(aggregateId) && result.envelopes[0].payload == payload
  }

  ghost predicate OrdersSent(kept: seq<PublishResult>, user: string, items: seq<OrderItem>) {
    && |kept| <= |items|
    && forall i | 0 <= i < |kept| ::
         SentTo(kept[i], user, "order_updated", items[i].report.providerOrderId, items[i].payload)
  }

  ghost predicate FillsSent(kept: seq<PublishResult>, user: string, items: seq<FillItem>) {
    && |kept| <= |items|
    && forall i | 0 <= i < |kept| :: SentTo(kept[i], user, "fill_created", items[i].aggregateId, items[i].payload)
  }

  lemma ProviderTrimmed()
    ensures TrimSpace(PROVIDER) == PROVIDER
  {
    TrimmedIffFixed(PROVIDER, WHITESPACE);
    hide Trim;
  }

  lemma NoTopicNamed()
    ensures Trim("", {'/', ' '}) == ""
  {
    TrimmedIffFixed("", {'/', ' '});
  }

  // The two types of event the bridge sends here, and the last levels of their topics.
  predicate SendsAt(kind: Topics.Kind, level: string) {
    || (kind == Topics.HypertraderOrderUpdated && level == "order_updated")
    || (kind == Topics.HypertraderFillCreated && level == "fill_created")
  }

  lemma SentLevels(kind: Topics.Kind, level: string, user: string)
    requires SendsAt(kind, level)
    ensures forall meme, chain, token, bucket ::
              Routes.Levels(kind, meme, user, chain, token, bucket) ==
                if user == "" then [] else [["users", Topics.TopicPart(user), "hypertrader", level]]
  {
    hide Topics.TopicPart;
    assert Topics.Private(kind) && Routes.UserLevels(kind) == ["hypertrader", level];
    var part := Topics.TopicPart(user);
    assert ["users", part] + ["hypertrader", level] == ["users", part, "hypertrader", level];
    hide Routes.UserLevels;
  }

  lemma GoesToUser(event: Topics.Event, topics: seq<string>, level: string)
    requires Routes.GoesTo(event, topics) && event.topic == "" && SendsAt(event.kind, level)
    ensures var user := TrimSpace(event.userId);
            topics == if user == "" then []
                      else [Routes.Path(["users", Topics.TopicPart(user), "hypertrader", level])]
  {
    NoTopicNamed();
    SentLevels(event.kind, level, TrimSpace(event.userId));
    hide Trim;
    hide TrimSpace;
    hide SendsAt;
    hide Topics.TopicPart;
    hide Routes.Levels;
    hide Routes.Path;
    hide Routes.ChainCode;
    hide Routes.SaysMeme;
  }

  lemma CarriedSent(event: Topics.Event, freshId: string, now: Time, base: nat, result: PublishResult, level: string)
    requires Carried(event, freshId, now, base, result) && result.envelopes != []
    requires event.topic == "" && event.source == PROVIDER && SendsAt(event.kind, level)
    ensures SentTo(result, event.userId, level, event.aggregateId, event.payload)
  {
    GoesToUser(event, result.topics, level);
    ProviderTrimmed();
    hide Routes.GoesTo;
    hide Trim;
    hide TrimSpace;
    hide SendsAt;
    hide Topics.TopicPart;
    hide Routes.Path;
    hide Routes.ChainCode;
    hide PROVIDER;
  }

  lemma OrdersAreSent(m: StreamRuns.State, m': StreamRuns.State, user: string, items: seq<OrderItem>,
                      freshIds: seq<string>, now: Time, delivered: nat -> nat -> bool, kept: seq<PublishResult>,
                      error: Option<Error>)
    requires |freshIds| == |items|
    requires BatchPublished(m, m', NormalizeAll(OrderEvents(user, items), freshIds, now), delivered, kept, error)
    ensures OrdersSent(kept, user, items)
  {
    hide BatchPublished;
    hide Carried;
    hide SentTo;
    var events := OrderEvents(user, items);
    BatchCarried(m, m', events, freshIds, now, delivered, kept, error);
    BatchLog(m, m', NormalizeAll(events, freshIds, now), delivered, kept, error);
    forall i | 0 <= i < |kept|
      ensures SentTo(kept[i], user, "order_updated", items[i].report.providerOrderId, items[i].payload)
    {
      assert CarriedSome(events[i], freshIds[i], now, kept[i]);
      var base :| Carried(events[i], freshIds[i], now, base, kept[i]);
      CarriedSent(events[i], freshIds[i], now, base, kept[i], "order_updated");
    }
  }

  lemma FillsAreSent(m: StreamRuns.State, m': StreamRuns.State, user: string, items: seq<FillItem>,
                     freshIds: seq<string>, now: Time, delivered: nat -> nat -> bool, kept: seq<PublishResult>,
                     error: Option<Error>)
    requires |freshIds| == |items|
    requires BatchPublished(m, m', NormalizeAll(FillEvents(user, items), freshIds, now), delivered, kept, error)
    ensures FillsSent(kept, user, items)
  {
    hide BatchPublished;
    hide Carried;
    hide SentTo;
    var events := FillEvents(user, items);
    BatchCarried(m, m', events, freshIds, now, delivered, kept, error);
    BatchLog(m, m', NormalizeAll(events, freshIds, now), delivered, kept, error);
    forall i | 0 <= i < |kept|
      ensures SentTo(kept[i], user, "fill_created", items[i].aggregateId, items[i].payload)
    {
      assert CarriedSome(events[i], freshIds[i], now, kept[i]);
      var base :| Carried(events[i], freshIds[i], now, base, kept[i]);
      CarriedSent(events[i], freshIds[i], now, base, kept[i], "fill_created");
    }
  }

  class Bridge {
    const store: MemoryStore
    const stream: Service

    constructor (store: MemoryStore, stream: Service)
      ensures this.store == store && this.stream == stream
    {
      this.store, this.stream := store, stream;
    }

    // Each item is stored before it is published, so the item whose publication fails is
    // stored too; the items after it are neither stored nor published.
    method PublishOrderUpdates(user: string, items: seq<OrderItem>, freshIds: seq<string>, now: Time,
                               delivered: nat -> nat -> bool,
                               ghost o: OrderRuns.State, ghost m: StreamRuns.State, ghost c: nat)
      returns (result: Result<nat, Error>, handled: nat, ghost maps: seq<OrderMap>, ghost kept: seq<PublishResult>,
               ghost steps: seq<StreamRuns.Step>)
      requires |freshIds| == |items|
      requires o.orders == store.orders && m.svc == stream.State() && c !in m.calls
      modifies store`orders, stream
      ensures handled == |kept| + (if result.Ok? then 0 else 1)
      ensures BatchPublished(m, Runs.Exec(StreamRuns.Protocol, m, steps),
                             NormalizeAll(OrderEvents(user, items), freshIds, now), delivered, kept, ErrorOf(result))
      ensures handled <= |items| && OrdersSent(kept, user, items)
      ensures |maps| == handled + 1 && maps[0] == old(store.orders) && maps[handled] == store.orders
      ensures ItemsLanded(maps, user, items[..handled], now)
      ensures OthersKept(old(store.orders), store.orders, user, items[..handled])
      ensures var reports := ReportSteps(user, items[..handled], now);
              && Runs.Legal(OrderRuns.Protocol, o, reports)
              && Runs.Exec(OrderRuns.Protocol, o, reports) == o.(orders := store.orders)
      ensures Runs.Legal(StreamRuns.Protocol, m, steps)
      ensures Runs.Exec(StreamRuns.Protocol, m, steps).svc == stream.State()
    {
      hide Runs.Legal;
      hide Runs.Exec;
      hide ReportSteps;
      hide AfterReport;
      hide Published;
      hide Topics.NormalizeEvent;
      hide OrderEvent;
      hide OrdersSent;
      hide ItemsLanded;
      hide OthersKept;
      hide ReportLanded;
      Runs.NoSteps(StreamRuns.Protocol, m);
      OrderStart(o, user, now);
      NoneLanded(store.orders, user, now);
      assert items[..0] == [];
      steps, handled, kept, maps := [], 0, [], [store.orders];
      ghost var events, trail := NormalizeAll(OrderEvents(user, items), freshIds, now), [m];
      while handled < |items|
        invariant handled <= |items|
        invariant ItemsLanded(maps, user, items[..handled], now)
        invariant |maps| == handled + 1 && maps[0] == old(store.orders) && maps[handled] == store.orders
        invariant OthersKept(old(store.orders), store.orders, user, items[..handled])
        invariant Runs.Legal(OrderRuns.Protocol, o, ReportSteps(user, items[..handled], now))
        invariant Runs.Exec(OrderRuns.Protocol, o, ReportSteps(user, items[..handled], now))
                  == o.(orders := store.orders)
        invariant Runs.Legal(StreamRuns.Protocol, m, steps)
        invariant var m' := Runs.Exec(StreamRuns.Protocol, m, steps);
                  && m'.svc == stream.State() && m'.calls == m.calls
                  && |kept| == handled && Trail(trail, m, m', events, delivered, kept)
      {
        var item := items[handled];
        ghost var before := store.orders;
        store.UpdateOrderStatusByProvider(InputOf(user, item), item.report, now);
        ReportNext(o, user, items, now, handled, before);
        ItemLands(maps, store.orders, user, items, now, handled);
        maps := maps + [store.orders];
        OthersKeptNext(old(store.orders), before, store.orders, user, items, now, handled);
        ghost var m0 := Runs.Exec(StreamRuns.Protocol, m, steps);
        var published, more := stream.Publish(OrderEvent(user, item), freshIds[handled], now,
                                            delivered(handled), m0, c);
        Runs.Append(StreamRuns.Protocol, m, steps, more);
        steps := steps + more;
        ghost var m' := Runs.Exec(StreamRuns.Protocol, m, steps);
        PublishedCalls(m0, m', events[handled], delivered(handled), published);
        handled := handled + 1;
        if published.Err? {
          result := Err(published.error);
          OrdersAreSent(m, m', user, items, freshIds, now, delivered, kept, ErrorOf(result));
          return;
        }
        TrailGrows(trail, m, m0, m', events, delivered, kept, published.value);
        trail, kept := trail + [m'], kept + [published.value];
      }
      result := Ok(handled);
      OrdersAreSent(m, Runs.Exec(StreamRuns.Protocol, m, steps), user, items, freshIds, now, delivered, kept,
                    ErrorOf(result));
    }

    // Publishes the fills of a message in order, stopping at the first failure.
    method PublishFills(user: string, items: seq<FillItem>, freshIds: seq<string>, now: Time,
                        delivered: nat -> nat -> bool, ghost m: StreamRuns.State, ghost c: nat)
      returns (result: Result<nat, Error>, fills: seq<Fill>, ghost kept: seq<PublishResult>,
               ghost steps: seq<StreamRuns.Step>)
      requires |freshIds| == |items| && m.svc == stream.State() && c !in m.calls
      modifies stream
      ensures Runs.Legal(StreamRuns.Protocol, m, steps)
      ensures Runs.Exec(StreamRuns.Protocol, m, steps).svc == stream.State()
      ensures BatchPublished(m, Runs.Exec(StreamRuns.Protocol, m, steps),
                             NormalizeAll(FillEvents(user, items), freshIds, now), delivered, kept, ErrorOf(result))
      ensures result.Ok? ==> fills == FillsOf(items)
    {
      hide Runs.Legal;
      hide Runs.Exec;
      hide Published;
      hide Topics.NormalizeEvent;
      hide FillEvent;
      Runs.NoSteps(StreamRuns.Protocol, m);
      steps, fills, kept := [], [], [];
      ghost var events, trail := NormalizeAll(FillEvents(user, items), freshIds, now), [m];
      for i := 0 to |items|
        invariant Runs.Legal(StreamRuns.Protocol, m, steps)
        invariant var m' := Runs.Exec(StreamRuns.Protocol, m, steps);
                  && m'.svc == stream.State() && m'.calls == m.calls
                  && |kept| == i && Trail(trail, m, m', events, delivered, kept)
        invariant fills == FillsOf(items[..i])
      {
        fills := fills + [items[i].fill];
        assert FillsOf(items[..i + 1]) == FillsOf(items[..i]) + [items[i].fill];
        ghost var m0 := Runs.Exec(StreamRuns.Protocol, m, steps);
        var published, more := stream.Publish(FillEvent(user, items[i]), freshIds[i], now, delivered(i), m0, c);
        Runs.Append(StreamRuns.Protocol, m, steps, more);
        steps := steps + more;
        ghost var m' := Runs.Exec(StreamRuns.Protocol, m, steps);
        PublishedCalls(m0, m', events[i], delivered(i), published);
        if published.Err? {
          result := Err(published.error);
          return;
        }
        TrailGrows(trail, m, m0, m', events, delivered, kept, published.value);
        trail, kept := trail + [m'], kept + [published.value];
      }
      assert items[..|items|] == items;
      result := Ok(|items|);
    }

    // Fills are stored all together, and only once every one of them was published and
    // remembered.
    method PublishUserFills(rawUser: string, defaultUser: string, items: seq<FillItem>,
                            freshIds: seq<string>, now: Time,
                            delivered: nat -> nat -> bool, ghost m: StreamRuns.State, ghost c: nat)
      returns (result: Result<nat, Error>, ghost kept: seq<PublishResult>, ghost steps: seq<StreamRuns.Step>)
      requires |freshIds| == |items| && m.svc == stream.State() && c !in m.calls
      modifies store`fills, stream
      ensures store.fills ==
              AfterArrival(old(store.fills), UserFillsMessage(rawUser, defaultUser, FillsOf(items), result.Ok?))
      ensures result.Ok? ==>
                Added(old(store.fills), store.fills, FirstNonEmpty(rawUser, defaultUser), FillsOf(items))
      ensures result.Err? ==> store.fills == old(store.fills)
      ensures Runs.Legal(StreamRuns.Protocol, m, steps)
      ensures Runs.Exec(StreamRuns.Protocol, m, steps).svc == stream.State()
      ensures BatchPublished(m, Runs.Exec(StreamRuns.Protocol, m, steps),
                             NormalizeAll(FillEvents(FirstNonEmpty(rawUser, defaultUser), items), freshIds, now),
                             delivered, kept, ErrorOf(result))
      ensures FillsSent(kept, FirstNonEmpty(rawUser, defaultUser), items)
    {
      hide FillsSent;
      hide FirstNonEmpty;
      hide AfterAppend;
      hide Added;
      hide BatchPublished;
      hide Runs.Legal;
      hide Runs.Exec;
      var user := FirstNonEmpty(rawUser, defaultUser);
      var fills;
      result, fills, kept, steps := PublishFills(user, items, freshIds, now, delivered, m, c);
      FillsAreSent(m, Runs.Exec(StreamRuns.Protocol, m, steps), user, items, freshIds, now, delivered, kept,
                   ErrorOf(result));
      if result.Ok? {
        store.AppendFills(user, fills);
      }
    }

    // The same for the fills of a user event; a funding, liquidation or cancellation event
    // that fails to publish afterwards does not take them back. `mid` is the stream state
    // between the fills and those events.
    method PublishUserEvents(defaultUser: string, items: seq<FillItem>, others: seq<Topics.Event>,
                             freshIds: seq<string>, moreIds: seq<string>, now: Time,
                             delivered: nat -> nat -> bool, alsoDelivered: nat -> nat -> bool,
                             ghost m: StreamRuns.State, ghost c: nat)
      returns (result: Result<nat, Error>, stored: bool, ghost mid: StreamRuns.State,
               ghost kept: seq<PublishResult>, ghost also: seq<PublishResult>, ghost steps: seq<StreamRuns.Step>)
      requires |freshIds| == |items| && |moreIds| == |others|
      requires m.svc == stream.State() && c !in m.calls
      modifies store`fills, stream
      ensures store.fills == AfterArrival(old(store.fills), UserEventsMessage(defaultUser, FillsOf(items), stored))
      ensures stored && items != [] ==> Added(old(store.fills), store.fills, defaultUser, FillsOf(items))
      ensures !stored || items == [] ==> store.fills == old(store.fills)
      ensures BatchPublished(m, mid, NormalizeAll(FillEvents(defaultUser, items), freshIds, now), delivered, kept,
                             if stored then None else ErrorOf(result))
      ensures FillsSent(kept, defaultUser, items)
      ensures !stored ==> result.Err? && Runs.Exec(StreamRuns.Protocol, m, steps) == mid
      ensures stored ==> BatchPublished(mid, Runs.Exec(StreamRuns.Protocol, m, steps),
                                        NormalizeAll(others, moreIds, now), alsoDelivered, also, ErrorOf(result))
      ensures Runs.Legal(StreamRuns.Protocol, m, steps)
      ensures Runs.Exec(StreamRuns.Protocol, m, steps).svc == stream.State()
    {
      hide AfterAppend;
      hide Added;
      hide BatchPublished;
      hide FillsSent;
      hide Runs.Legal;
      hide Runs.Exec;
      stored, also := true, [];
      var r, fills;
      r, fills, kept, steps := PublishFills(defaultUser, items, freshIds, now, delivered, m, c);
      mid := Runs.Exec(StreamRuns.Protocol, m, steps);
      BatchCalls(m, mid, NormalizeAll(FillEvents(defaultUser, items), freshIds, now), delivered, kept, ErrorOf(r));
      FillsAreSent(m, mid, defaultUser, items, freshIds, now, delivered, kept, ErrorOf(r));
      if r.Err? {
        stored := false;
        result := Err(r.error);
        return;
      }
      if |items| > 0 {
        store.AppendFills(defaultUser, fills);
      }
      ghost var more;
      var results;
      results, also, more := stream.PublishBatch(others, moreIds, now, alsoDelivered, mid, c);
      Runs.Append(StreamRuns.Protocol, m, steps, more);
      steps := steps + more;
      result := if results.Ok? then Ok(|others|) else Err(results.error);
    }

    // After a reconnect the provider's fills are stored first and then published one by
    // one: every fill is attempted, in order, whatever became of those before it.
    method ReconcileFills(user: string, answer: Option<seq<FillItem>>, freshIds: seq<string>, now: Time,
                          delivered: nat -> nat -> bool, ghost m: StreamRuns.State, ghost c: nat)
      returns (ghost outcomes: seq<Result<PublishResult, Error>>, ghost steps: seq<StreamRuns.Step>)
      requires answer.Some? ==> |freshIds| == |answer.value|
      requires m.svc == stream.State() && c !in m.calls
      modifies store`fills, stream
      ensures store.fills ==
              AfterArrival(old(store.fills),
                           Reconciliation(user, if answer.Some? then FillsOf(answer.value) else [], answer.Some?))
      ensures answer.Some? ==> Added(old(store.fills), store.fills, user, FillsOf(answer.value))
      ensures answer.None? ==> steps == [] && store.fills == old(store.fills)
      ensures answer.Some? ==>
                AllAttempted(m, Runs.Exec(StreamRuns.Protocol, m, steps),
                             NormalizeAll(FillEvents(user, answer.value), freshIds, now), delivered, outcomes)
      ensures Runs.Legal(StreamRuns.Protocol, m, steps)
      ensures Runs.Exec(StreamRuns.Protocol, m, steps).svc == stream.State()
    {
      hide AfterAppend;
      hide Added;
      hide Runs.Legal;
      hide Runs.Exec;
      hide Published;
      hide Topics.NormalizeEvent;
      hide FillEvent;
      Runs.NoSteps(StreamRuns.Protocol, m);
      steps, outcomes := [], [];
      if answer.None? {
        return;
      }
      var items := answer.value;
      store.AppendFills(user, FillsOf(items));
      ghost var storedFills := store.fills;
      ghost var events, trail := NormalizeAll(FillEvents(user, items), freshIds, now), [m];
      for i := 0 to |items|
        invariant store.fills == storedFills
        invariant Runs.Legal(StreamRuns.Protocol, m, steps)
        invariant var m' := Runs.Exec(StreamRuns.Protocol, m, steps);
                  && m'.svc == stream.State() && m'.calls == m.calls
                  && |outcomes| == i && Attempts(trail, m, m', events, delivered, outcomes)
      {
        ghost var m0 := Runs.Exec(StreamRuns.Protocol, m, steps);
        var published, more := stream.Publish(FillEvent(user, items[i]), freshIds[i], now, delivered(i), m0, c);
        Runs.Append(StreamRuns.Protocol, m, steps, more);
        steps := steps + more;
        ghost var m' := Runs.Exec(StreamRuns.Protocol, m, steps);
        PublishedCalls(m0, m', events[i], delivered(i), published);
        AttemptsGrow(trail, m, m0, m', events, delivered, outcomes, published);
        trail, outcomes := trail + [m'], outcomes + [published];
      }
    }

    // A history request stores what the provider answers; without an answer it falls back
    // on the stored fills, unless there are none.
    method TradeHistory(user: string, limit: int, answer: Option<seq<Fill>>)
      returns (trades: Result<seq<Fill>, HistoryError>)
      requires BookKeyed(store.fills)
      modifies store`fills
      ensures store.fills ==
              AfterArrival(old(store.fills),
                           HistoryRequest(user, if answer.Some? then answer.value else [], answer.Some?))
      ensures BookKeyed(store.fills)
      ensures answer.Some? ==> trades == Ok(answer.value) && Added(old(store.fills), store.fills, user, answer.value)
      ensures answer.None? ==>
                var held := Of(old(store.fills), ToLower(TrimSpace(user)));
                && store.fills == old(store.fills)
                && (trades.Err? <==> |held| == 0)
                && (trades.Ok? ==> NewestOf(trades.value, held, if 1 <= limit <= 2000 then limit else 100))
    {
      hide AfterAppend;
      hide Added;
      hide TrimSpace;
      hide BookKeyed;
      if answer.Some? {
        store.AppendFills(user, answer.value);
        return Ok(answer.value);
      }
      var snapshot := store.ListFills(user, limit);
      trades := if |snapshot| > 0 then Ok(snapshot) else Err(ProviderFailed);
    }
  }

  lemma BatchCalls(m: StreamRuns.State, m': StreamRuns.State, events: seq<Topics.Event>, delivered: nat -> nat -> bool,
                   results: seq<PublishResult>, error: Option<Error>)
    requires BatchPublished(m, m', events, delivered, results, error)
    ensures m'.calls == m.calls
  {
    hide BatchPublished;
    BatchLog(m, m', events, delivered, results, error);
  }

  lemma NoneLanded(orders: OrderMap, user: string, now: Time)
    ensures ItemsLanded([orders], user, [], now) && OthersKept(orders, orders, user, [])
  {
  }

  lemma ItemLands(maps: seq<OrderMap>, after: OrderMap, user: string, items: seq<OrderItem>, now: Time, i: nat)
    requires i < |items| && |maps| == i + 1 && ItemsLanded(maps, user, items[..i], now)
    requires ReportLanded(maps[i], after, user, "", items[i].report, now)
    ensures ItemsLanded(maps + [after], user, items[..i + 1], now)
  {
    hide ReportLanded;
  }

  lemma OthersKeptNext(before: OrderMap, middle: OrderMap, after: OrderMap, user: string, items: seq<OrderItem>,
                       now: Time, i: nat)
    requires i < |items| && OthersKept(before, middle, user, items[..i])
    requires ReportLanded(middle, after, user, "", items[i].report, now)
    ensures OthersKept(before, after, user, items[..i + 1])
  {
    hide OtherOwner;
    hide Names;
    hide Landed;
    var more := items[..i + 1];
    assert forall k | 0 <= k < i :: more[k] == items[..i][k];
    forall id | id in before &&
                (OtherOwner(before[id], user, "") || (forall k | 0 <= k < |more| :: !Names(more[k].report, before[id])))
      ensures after[id] == before[id]
    {
      assert more[i] == items[i];
    }
  }

  lemma OrderStart(o: OrderRuns.State, user: string, now: Time)
    ensures Runs.Legal(OrderRuns.Protocol, o, ReportSteps(user, [], now))
    ensures Runs.Exec(OrderRuns.Protocol, o, ReportSteps(user, [], now)) == o
  {
  }

  lemma ReportNext(o: OrderRuns.State, user: string, items: seq<OrderItem>, now: Time, i: nat, before: OrderMap)
    requires i < |items|
    requires Runs.Legal(OrderRuns.Protocol, o, ReportSteps(user, items[..i], now))
    requires Runs.Exec(OrderRuns.Protocol, o, ReportSteps(user, items[..i], now)) == o.(orders := before)
    ensures Runs.Legal(OrderRuns.Protocol, o, ReportSteps(user, items[..i + 1], now))
    ensures Runs.Exec(OrderRuns.Protocol, o, ReportSteps(user, items[..i + 1], now)) ==
            o.(orders := AfterReport(before, InputOf(user, items[i]), items[i].report, now))
  {
    hide InputOf;
    var t := OrderRuns.WsReport(InputOf(user, items[i]), items[i].report, now);
    assert ReportSteps(user, items[..i + 1], now) == ReportSteps(user, items[..i], now) + [t];
    hide ReportSteps;
    OrderRuns.ReportEffect(o.(orders := before), InputOf(user, items[i]), items[i].report, now);
    OrderRuns.ProtocolStep(o, ReportSteps(user, items[..i], now), o.(orders := before), t);
  }
}
