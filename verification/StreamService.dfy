// The stream bridge service: publishing to the broker, batches, and the recent events.
module StreamService {
  import opened Results
  import opened Runs
  import opened Clock
  import opened Maps
  import opened Text
  import opened Topics
  import opened Routes
  import opened Stream
  import opened StreamRuns

  datatype Error = TypeRequired | NoTopic | PublishFailed

  datatype PublishResult = PublishResult(eventId: string, topics: seq<string>, envelopes: seq<Envelope>)

  datatype TopicSnapshot = TopicSnapshot(lastSeq: nat, lastEventAt: int, events: nat)

  // The envelopes of one event on the given topics, numbered after `base`.
  function Envelopes(topics: seq<string>, event: Event, base: nat): (r: seq<Envelope>)
    ensures |r| == |topics|
  {
    seq(|topics|, i requires 0 <= i < |topics| => MakeEnvelope(topics[i], event, base + i + 1))
  }

  // The first topic, of n, whose encoding or publication fails; n when none does.
  function FirstFailure(delivered: nat -> bool, n: nat): (k: nat)
    ensures k <= n
    ensures k < n ==> !delivered(k)
    ensures forall i | 0 <= i < k :: delivered(i)
  {
    if n == 0 then 0
    else
      var k := FirstFailure(delivered, n - 1);
      if k < n - 1 || !delivered(n - 1) then k else n
  }

  // What one Publish call does to the protocol state: topics are numbered, delivered and
  // remembered in order up to the first failure. What was delivered before it stays
  // remembered, the failed number is used up, later topics get none.
  ghost predicate Published(m: State, m': State, e: Event, delivered: nat -> bool,
                            result: Result<PublishResult, Error>) {
    var topics := ResolveTopics(e);
    var n, base := |topics|, m.svc.seqNo;
    var k := FirstFailure(delivered, n);
    if e.kind == Custom("") then result == Err(TypeRequired) && m' == m
    else if topics == [] then result == Err(NoTopic) && m' == m
    else
      && m'.calls == m.calls
      && m'.log == m.log + Envelopes(topics[..k], e, base)
      && m'.svc.seqNo == base + (if k == n then n else k + 1)
      && m'.failed == m.failed + (if k == n then {} else {base + k + 1})
      && result == if k == n then Ok(PublishResult(e.id, topics, Envelopes(topics, e, base))) else Err(PublishFailed)
  }

  // A published event as it was handed in: it went where it goes, one envelope on each topic
  // with the next numbers, and each envelope carries its cleaned-up fields.
  ghost predicate Carried(event: Event, freshId: string, now: int, base: nat, result: PublishResult) {
    var id, at := if event.id == "" then freshId else event.id, if event.createdAt == 0 then now else event.createdAt;
    && GoesTo(event, result.topics) && result.eventId == id && |result.envelopes| == |result.topics|
    && forall i | 0 <= i < |result.topics| ::
         var e := result.envelopes[i];
         && e.topic == result.topics[i] && e.seqNo == base + i + 1 && e.id == id && e.ts == at / SECOND
         && e.kind == (if event.kind.Custom? then Custom(TrimSpace(event.kind.name)) else event.kind)
         && e.source == TrimSpace(event.source) && e.aggregateId == TrimSpace(event.aggregateId)
         && e.userId == TrimSpace(event.userId) && ChainCode(event.chainId, e.chainId)
         && e.token == TrimSpace(event.token) && e.payload == event.payload
  }

  lemma EnvelopesCarry(event: Event, freshId: string, now: int, topics: seq<string>, base: nat)
    ensures var e := NormalizeEvent(event, freshId, now);
            topics == ResolveTopics(e) ==>
              Carried(event, freshId, now, base, PublishResult(e.id, topics, Envelopes(topics, e, base)))
  {
    ResolvesTo(event, freshId, now);
    ChainIsCode(event.chainId);
    hide ResolveTopics;
    hide GoesTo;
    hide ChainCode;
    hide NormalizeChain;
    hide TrimSpace;
    hide Trim;
  }

  lemma PublishedCarries(m: State, m': State, event: Event, freshId: string, now: int, delivered: nat -> bool,
                         result: Result<PublishResult, Error>)
    requires Published(m, m', NormalizeEvent(event, freshId, now), delivered, result) && result.Ok?
    ensures Carried(event, freshId, now, m.svc.seqNo, result.value)
  {
    EnvelopesCarry(event, freshId, now, ResolveTopics(NormalizeEvent(event, freshId, now)), m.svc.seqNo);
    hide NormalizeEvent;
    hide ResolveTopics;
    hide Envelopes;
    hide Carried;
  }

  function NormalizeAll(batch: seq<Event>, freshIds: seq<string>, now: int): (events: seq<Event>)
    requires |freshIds| == |batch|
    ensures |events| == |batch|
    ensures forall i | 0 <= i < |batch| :: events[i] == NormalizeEvent(batch[i], freshIds[i], now)
  {
    seq(|batch|, i requires 0 <= i < |batch| => NormalizeEvent(batch[i], freshIds[i], now))
  }

  function ErrorOf<T>(result: Result<T, Error>): Option<Error> {
    if result.Ok? then None else Some(result.error)
  }

  // The states between the events of a batch whose first |results| were all published.
  ghost predicate Trail(trail: seq<State>, m: State, m': State, events: seq<Event>, delivered: nat -> nat -> bool,
                        results: seq<PublishResult>) {
    && |results| <= |events| && |trail| == |results| + 1 && trail[0] == m && trail[|results|] == m'
    && (forall i | 0 <= i < |results| :: Published(trail[i], trail[i + 1], events[i], delivered(i), Ok(results[i])))
  }

  // What publishing events in order does: all of them, or those before the first that fails
  // and of that one what Published says.
  ghost predicate BatchPublished(m: State, m': State, events: seq<Event>, delivered: nat -> nat -> bool,
                                 results: seq<PublishResult>, error: Option<Error>) {
    match error
    case None => |results| == |events| && exists trail :: Trail(trail, m, m', events, delivered, results)
    case Some(e) =>
      && |results| < |events|
      && exists trail, last ::
           && Trail(trail, m, last, events, delivered, results)
           && Published(last, m', events[|results|], delivered(|results|), Err(e))
  }

  // The states between events that are published one by one whatever becomes of them.
  ghost predicate Attempts(trail: seq<State>, m: State, m': State, events: seq<Event>, delivered: nat -> nat -> bool,
                           outcomes: seq<Result<PublishResult, Error>>) {
    && |outcomes| <= |events| && |trail| == |outcomes| + 1 && trail[0] == m && trail[|outcomes|] == m'
    && (forall i | 0 <= i < |outcomes| :: Published(trail[i], trail[i + 1], events[i], delivered(i), outcomes[i]))
  }

  // Every event is attempted, in order.
  ghost predicate AllAttempted(m: State, m': State, events: seq<Event>, delivered: nat -> nat -> bool,
                               outcomes: seq<Result<PublishResult, Error>>) {
    |outcomes| == |events| && exists trail :: Attempts(trail, m, m', events, delivered, outcomes)
  }

  class Service {
    var seqNo: nat
    var events: map<string, seq<Envelope>>

    constructor ()
      ensures State() == StreamState(0, map[])
    {
      seqNo, events := 0, map[];
    }

    ghost function State(): StreamState
      reads this
    {
      StreamState(seqNo, events)
    }

    method NextEnvelope(topic: string, event: Event) returns (envelope: Envelope)
      modifies this`seqNo
      ensures State() == Assign(old(State()))
      ensures envelope == MakeEnvelope(topic, event, seqNo)
      ensures envelope.seqNo == old(seqNo) + 1 && envelope.topic == topic
    {
      seqNo := seqNo + 1;
      envelope := MakeEnvelope(topic, event, seqNo);
    }

    method RememberOne(envelope: Envelope)
      modifies this`events
      ensures State() == Remember(old(State()), envelope)
      ensures var all := (if envelope.topic in old(events) then old(events)[envelope.topic] else []) + [envelope];
              events == old(events)[envelope.topic := if |all| > 200 then all[|all| - 200..] else all]
    {
      var kept := (if envelope.topic in events then events[envelope.topic] else []) + [envelope];
      if |kept| > MAX_EVENTS {
        kept := kept[|kept| - MAX_EVENTS..];
      }
      events := events[envelope.topic := kept];
    }

    // One Publish call alone is a legal run of the protocol, with the effects of Published.
    method Publish(event: Event, freshId: string, now: int, delivered: nat -> bool, ghost m: State, ghost c: nat)
      returns (result: Result<PublishResult, Error>, ghost steps: seq<Step>)
      requires m.svc == State() && c !in m.calls
      modifies this
      ensures Legal(Protocol, m, steps) && Exec(Protocol, m, steps).svc == State()
      ensures Published(m, Exec(Protocol, m, steps), NormalizeEvent(event, freshId, now), delivered, result)
      ensures result.Ok? ==> Carried(event, freshId, now, m.svc.seqNo, result.value)
    {
      hide Carried;
      hide NormalizeEvent;
      hide ResolveTopics;
      hide Enabled;
      hide After;
      hide MakeEnvelope;
      hide Published;
      hide FirstFailure;
      hide Legal;
      hide Exec;
      hide Remember;
      NoSteps(Protocol, m);
      steps := [];
      var e := NormalizeEvent(event, freshId, now);
      if e.kind == Custom("") {
        UntypedRefused(m, e, delivered);
        result := Err(TypeRequired);
        return;
      }
      var topics := ResolveTopics(e);
      if |topics| == 0 {
        UnroutedRefused(m, e, delivered);
        result := Err(NoTopic);
        return;
      }
      StartNext(m, c, e);
      steps := [Start(c, e)];
      var envelopes := [];
      var i := 0;
      while i < |topics|
        invariant 0 <= i <= |topics|
        invariant forall j | 0 <= j < i :: delivered(j)
        invariant Legal(Protocol, m, steps)
        invariant Underway(m, Exec(Protocol, m, steps), c, e, topics, i)
        invariant Exec(Protocol, m, steps).svc == State()
        invariant envelopes == Envelopes(topics[..i], e, m.svc.seqNo)
      {
        ghost var m0 := Exec(Protocol, m, steps);
        var envelope := NextEnvelope(topics[i], e);
        if !delivered(i) {
          FailNext(m, steps, m0, c, e, topics, i);
          FailedAt(m, Exec(Protocol, m, steps + [AssignNumber(c)] + [PublishFails(c)]), e, delivered, i);
          steps := steps + [AssignNumber(c)] + [PublishFails(c)];
          result := Err(PublishFailed);
          return;
        }
        RememberOne(envelope);
        DeliverNext(m, steps, m0, c, e, topics, i);
        EnvelopesExtend(topics, e, m.svc.seqNo, i);
        steps := steps + [AssignNumber(c)] + [BrokerAccepts(c)] + [RememberEnvelope(c)];
        envelopes := envelopes + [envelope];
        i := i + 1;
      }
      assert topics[..i] == topics;
      AllDelivered(m, Exec(Protocol, m, steps), e, delivered);
      result := Ok(PublishResult(e.id, topics, envelopes));
      PublishedCarries(m, Exec(Protocol, m, steps), event, freshId, now, delivered, result);
    }

    // A batch stops at its first failing event and then returns no results, but what was
    // delivered before stays published: the events of `kept` whole, the failing one up to
    // its failing topic, later ones not at all.
    method PublishBatch(batch: seq<Event>, freshIds: seq<string>, now: int, delivered: nat -> nat -> bool,
                        ghost m: State, ghost c: nat)
      returns (results: Result<seq<PublishResult>, Error>, ghost kept: seq<PublishResult>, ghost steps: seq<Step>)
      requires |freshIds| == |batch|
      requires m.svc == State() && c !in m.calls
      modifies this
      ensures Legal(Protocol, m, steps) && Exec(Protocol, m, steps).svc == State()
      ensures BatchPublished(m, Exec(Protocol, m, steps), NormalizeAll(batch, freshIds, now), delivered, kept,
                             ErrorOf(results))
      ensures results.Ok? ==> results.value == kept
      ensures AllCarried(batch, freshIds, now, kept)
    {
      hide Carried;
      hide AllCarried;
      hide NormalizeEvent;
      hide ResolveTopics;
      hide Legal;
      hide Exec;
      hide Published;
      NoSteps(Protocol, m);
      steps, kept := [], [];
      ghost var events, trail := NormalizeAll(batch, freshIds, now), [m];
      var out := [];
      for i := 0 to |batch|
        invariant Legal(Protocol, m, steps)
        invariant Exec(Protocol, m, steps).svc == State() && Exec(Protocol, m, steps).calls == m.calls
        invariant |out| == i && Trail(trail, m, Exec(Protocol, m, steps), events, delivered, out)
        invariant kept == out
      {
        ghost var m0 := Exec(Protocol, m, steps);
        var r, more := Publish(batch[i], freshIds[i], now, delivered(i), m0, c);
        Append(Protocol, m, steps, more);
        steps := steps + more;
        PublishedCalls(m0, Exec(Protocol, m, steps), events[i], delivered(i), r);
        if r.Err? {
          results := Err(r.error);
          BatchCarried(m, Exec(Protocol, m, steps), batch, freshIds, now, delivered, kept, ErrorOf(results));
          return;
        }
        TrailGrows(trail, m, m0, Exec(Protocol, m, steps), events, delivered, out, r.value);
        trail := trail + [Exec(Protocol, m, steps)];
        out := out + [r.value];
        kept := out;
      }
      results := Ok(out);
      BatchCarried(m, Exec(Protocol, m, steps), batch, freshIds, now, delivered, kept, ErrorOf(results));
    }

    method RecentEvents(topic: string, limit: int) returns (out: seq<Envelope>)
      ensures out == Recent(State(), topic, limit)
      ensures var all := if topic in events then events[topic] else [];
              var k := if 1 <= limit <= 200 then limit else 50;
              out == if |all| > k then all[|all| - k..] else all
    {
      var k := if limit <= 0 || limit > MAX_EVENTS then DEFAULT_RECENT else limit;
      out := if topic in events then events[topic] else [];
      if |out| > k {
        out := out[|out| - k..];
      }
    }

    // One entry per topic, with the number and time of the newest remembered envelope.
    method TopicSnapshots() returns (snapshots: map<string, TopicSnapshot>)
      ensures snapshots.Keys == events.Keys
      ensures forall t | t in snapshots ::
                var b := events[t];
                snapshots[t] == if b == [] then TopicSnapshot(0, 0, 0)
                                else TopicSnapshot(b[|b| - 1].seqNo, b[|b| - 1].ts, |b|)
    {
      snapshots := map[];
      var left := events.Keys;
      while left != {}
        invariant left <= events.Keys
        invariant snapshots.Keys == events.Keys - left
        invariant forall t | t in snapshots ::
                    var b := events[t];
                    snapshots[t] == if b == [] then TopicSnapshot(0, 0, 0)
                                    else TopicSnapshot(b[|b| - 1].seqNo, b[|b| - 1].ts, |b|)
      {
        var t :| t in left;
        var b := events[t];
        snapshots := snapshots[t := if b == [] then TopicSnapshot(0, 0, 0)
                                    else TopicSnapshot(b[|b| - 1].seqNo, b[|b| - 1].ts, |b|)];
        left := left - {t};
      }
    }
  }

  lemma UntypedRefused(m: State, e: Event, delivered: nat -> bool)
    requires e.kind == Custom("")
    ensures Published(m, m, e, delivered, Err(TypeRequired))
  {
  }

  lemma UnroutedRefused(m: State, e: Event, delivered: nat -> bool)
    requires e.kind != Custom("") && ResolveTopics(e) == []
    ensures Published(m, m, e, delivered, Err(NoTopic))
  {
    hide ResolveTopics;
  }

  lemma FailedAt(m: State, m': State, e: Event, delivered: nat -> bool, i: nat)
    requires e.kind != Custom("") && i < |ResolveTopics(e)|
    requires (forall j | 0 <= j < i :: delivered(j)) && !delivered(i)
    requires m'.calls == m.calls && m'.log == m.log + Envelopes(ResolveTopics(e)[..i], e, m.svc.seqNo)
    requires m'.svc.seqNo == m.svc.seqNo + i + 1 && m'.failed == m.failed + {m.svc.seqNo + i + 1}
    ensures Published(m, m', e, delivered, Err(PublishFailed))
  {
    hide ResolveTopics;
    hide Envelopes;
    FailureAt(delivered, i, |ResolveTopics(e)|);
  }

  lemma AllDelivered(m: State, m': State, e: Event, delivered: nat -> bool)
    requires e.kind != Custom("") && ResolveTopics(e) != []
    requires forall j | 0 <= j < |ResolveTopics(e)| :: delivered(j)
    requires m'.calls == m.calls && m'.log == m.log + Envelopes(ResolveTopics(e), e, m.svc.seqNo)
    requires m'.svc.seqNo == m.svc.seqNo + |ResolveTopics(e)| && m'.failed == m.failed
    ensures Published(m, m', e, delivered,
                      Ok(PublishResult(e.id, ResolveTopics(e), Envelopes(ResolveTopics(e), e, m.svc.seqNo))))
  {
    hide ResolveTopics;
    hide Envelopes;
    var topics := ResolveTopics(e);
    FailureAt(delivered, |topics|, |topics|);
    assert topics[..|topics|] == topics;
  }

  // What the results of a batch put into the log, in order.
  function Remembering(results: seq<PublishResult>): seq<Envelope> {
    if results == [] then [] else Remembering(results[..|results| - 1]) + results[|results| - 1].envelopes
  }

  lemma PublishedCalls(m: State, m': State, e: Event, delivered: nat -> bool, result: Result<PublishResult, Error>)
    requires Published(m, m', e, delivered, result)
    ensures m'.calls == m.calls
  {
    hide ResolveTopics;
    hide Envelopes;
  }

  lemma TrailGrows(trail: seq<State>, m: State, last: State, m': State, events: seq<Event>,
                   delivered: nat -> nat -> bool, results: seq<PublishResult>, r: PublishResult)
    requires Trail(trail, m, last, events, delivered, results) && |results| < |events|
    requires Published(last, m', events[|results|], delivered(|results|), Ok(r))
    ensures Trail(trail + [m'], m, m', events, delivered, results + [r])
  {
    hide Published;
  }

  // The delivered part of an event that fails at its first topic that is not delivered.
  function DeliveredPart(e: Event, delivered: nat -> bool, base: nat): seq<Envelope> {
    Envelopes(ResolveTopics(e)[..FirstFailure(delivered, |ResolveTopics(e)|)], e, base)
  }

  lemma PublishedLog(m: State, m': State, e: Event, delivered: nat -> bool, result: Result<PublishResult, Error>)
    requires Published(m, m', e, delivered, result)
    ensures m'.calls == m.calls && m.failed <= m'.failed
    ensures result.Ok? ==>
              && m'.failed == m.failed && m'.log == m.log + result.value.envelopes
              && m'.svc.seqNo == m.svc.seqNo + |result.value.envelopes| && result.value.envelopes != []
              && result.value.topics == ResolveTopics(e)
              && result.value.envelopes == Envelopes(ResolveTopics(e), e, m.svc.seqNo)
    ensures result.Err? ==>
              m'.log == m.log + if result.error == PublishFailed then DeliveredPart(e, delivered, m.svc.seqNo) else []
  {
    hide ResolveTopics;
    hide MakeEnvelope;
    var topics := ResolveTopics(e);
    assert topics[..|topics|] == topics;
  }

  lemma {:induction false} TrailLog(trail: seq<State>, m: State, m': State, events: seq<Event>,
                                    delivered: nat -> nat -> bool, results: seq<PublishResult>)
    requires Trail(trail, m, m', events, delivered, results)
    ensures m'.calls == m.calls && m'.failed == m.failed && m'.log == m.log + Remembering(results)
    ensures m'.svc.seqNo == m.svc.seqNo + |Remembering(results)|
    ensures forall i | 0 <= i < |results| :: results[i].topics == ResolveTopics(events[i]) && results[i].envelopes != []
    decreases results
  {
    hide Published;
    hide ResolveTopics;
    if results != [] {
      var n := |results| - 1;
      TrailLog(trail[..n + 1], m, trail[n], events, delivered, results[..n]);
      PublishedLog(trail[n], m', events[n], delivered(n), Ok(results[n]));
    }
  }

  // The log after a batch: the envelopes of the kept results in order, each with all its
  // topics, then the delivered part of the failing event, and nothing later.
  lemma BatchLog(m: State, m': State, events: seq<Event>, delivered: nat -> nat -> bool,
                 results: seq<PublishResult>, error: Option<Error>)
    requires BatchPublished(m, m', events, delivered, results, error)
    ensures |results| <= |events| && (error.None? <==> |results| == |events|) && m'.calls == m.calls
    ensures forall i | 0 <= i < |results| :: results[i].topics == ResolveTopics(events[i]) && results[i].envelopes != []
    ensures var k, kept := |results|, Remembering(results);
            m'.log == m.log + kept + if error == Some(PublishFailed)
                                     then DeliveredPart(events[k], delivered(k), m.svc.seqNo + |kept|) else []
  {
    hide Published;
    hide DeliveredPart;
    hide ResolveTopics;
    if error.None? {
      var trail :| Trail(trail, m, m', events, delivered, results);
      TrailLog(trail, m, m', events, delivered, results);
    } else {
      var trail, last :| Trail(trail, m, last, events, delivered, results) &&
                         Published(last, m', events[|results|], delivered(|results|), Err(error.value));
      TrailLog(trail, m, last, events, delivered, results);
      PublishedLog(last, m', events[|results|], delivered(|results|), Err(error.value));
    }
  }

  lemma AttemptsGrow(trail: seq<State>, m: State, last: State, m': State, events: seq<Event>,
                     delivered: nat -> nat -> bool, outcomes: seq<Result<PublishResult, Error>>,
                     r: Result<PublishResult, Error>)
    requires Attempts(trail, m, last, events, delivered, outcomes) && |outcomes| < |events|
    requires Published(last, m', events[|outcomes|], delivered(|outcomes|), r)
    ensures Attempts(trail + [m'], m, m', events, delivered, outcomes + [r])
  {
    hide Published;
  }

  // The envelopes that attempts at all these events leave in the log, and the number reached:
  // of every event its delivered part, whatever became of the events before it.
  function Attempted(events: seq<Event>, delivered: nat -> nat -> bool, base: nat): (seq<Envelope>, nat) {
    if events == [] then ([], base)
    else
      var n := |events| - 1;
      var (before, reached) := Attempted(events[..n], delivered, base);
      if events[n].kind == Custom("") then (before, reached)
      else
        var part, all := DeliveredPart(events[n], delivered(n), reached), |ResolveTopics(events[n])|;
        (before + part, reached + if |part| == all then all else |part| + 1)
  }

  lemma PublishedPart(m: State, m': State, e: Event, delivered: nat -> bool, result: Result<PublishResult, Error>)
    requires Published(m, m', e, delivered, result)
    ensures var part, all := DeliveredPart(e, delivered, m.svc.seqNo), |ResolveTopics(e)|;
            if e.kind == Custom("") then m' == m
            else
              && m'.log == m.log + part
              && m'.svc.seqNo == m.svc.seqNo + if |part| == all then all else |part| + 1
  {
    hide ResolveTopics;
    hide MakeEnvelope;
  }

  // The log after attempting every event is known from the events and the deliveries alone.
  lemma {:induction false} AttemptsLog(trail: seq<State>, m: State, m': State, events: seq<Event>,
                                       delivered: nat -> nat -> bool, outcomes: seq<Result<PublishResult, Error>>)
    requires Attempts(trail, m, m', events, delivered, outcomes)
    ensures var (log, reached) := Attempted(events[..|outcomes|], delivered, m.svc.seqNo);
            m'.log == m.log + log && m'.svc.seqNo == reached
    decreases outcomes
  {
    hide Published;
    hide DeliveredPart;
    hide ResolveTopics;
    if outcomes != [] {
      var n := |outcomes| - 1;
      AttemptsLog(trail[..n + 1], m, trail[n], events, delivered, outcomes[..n]);
      PublishedPart(trail[n], m', events[n], delivered(n), outcomes[n]);
      assert events[..n + 1][..n] == events[..n];
    }
  }

  lemma AllAttemptedLog(m: State, m': State, events: seq<Event>, delivered: nat -> nat -> bool,
                        outcomes: seq<Result<PublishResult, Error>>)
    requires AllAttempted(m, m', events, delivered, outcomes)
    ensures var (log, reached) := Attempted(events, delivered, m.svc.seqNo);
            m'.log == m.log + log && m'.svc.seqNo == reached
  {
    hide Attempts;
    hide Attempted;
    var trail :| Attempts(trail, m, m', events, delivered, outcomes);
    AttemptsLog(trail, m, m', events, delivered, outcomes);
    assert events[..|outcomes|] == events;
  }

  // ... with some numbers.
  ghost predicate CarriedSome(event: Event, freshId: string, now: int, result: PublishResult) {
    exists base :: Carried(event, freshId, now, base, result)
  }

  ghost predicate AllCarried(batch: seq<Event>, freshIds: seq<string>, now: int, results: seq<PublishResult>)
    requires |freshIds| == |batch|
  {
    && |results| <= |batch|
    && forall i | 0 <= i < |results| :: CarriedSome(batch[i], freshIds[i], now, results[i])
  }

  lemma TrailCarried(trail: seq<State>, m: State, m': State, batch: seq<Event>, freshIds: seq<string>, now: int,
                     delivered: nat -> nat -> bool, results: seq<PublishResult>)
    requires |freshIds| == |batch|
    requires Trail(trail, m, m', NormalizeAll(batch, freshIds, now), delivered, results)
    ensures AllCarried(batch, freshIds, now, results)
  {
    hide Published;
    hide Carried;
    hide NormalizeEvent;
    forall i | 0 <= i < |results| ensures CarriedSome(batch[i], freshIds[i], now, results[i]) {
      PublishedCarries(trail[i], trail[i + 1], batch[i], freshIds[i], now, delivered(i), Ok(results[i]));
    }
  }

  // Every event of a batch that was published whole is carried as it was handed in.
  lemma BatchCarried(m: State, m': State, batch: seq<Event>, freshIds: seq<string>, now: int,
                     delivered: nat -> nat -> bool, results: seq<PublishResult>, error: Option<Error>)
    requires |freshIds| == |batch|
    requires BatchPublished(m, m', NormalizeAll(batch, freshIds, now), delivered, results, error)
    ensures AllCarried(batch, freshIds, now, results)
  {
    var events := NormalizeAll(batch, freshIds, now);
    hide Published;
    hide Trail;
    hide AllCarried;
    hide NormalizeAll;
    if error.None? {
      var trail :| Trail(trail, m, m', events, delivered, results);
      TrailCarried(trail, m, m', batch, freshIds, now, delivered, results);
    } else {
      var trail, last :| Trail(trail, m, last, events, delivered, results)
                         && Published(last, m', events[|results|], delivered(|results|), Err(error.value));
      TrailCarried(trail, m, last, batch, freshIds, now, delivered, results);
    }
  }

  lemma {:induction false} FailureAt(delivered: nat -> bool, i: nat, n: nat)
    requires i <= n && (forall j | 0 <= j < i :: delivered(j)) && (i < n ==> !delivered(i))
    ensures FirstFailure(delivered, n) == i
  {
  }

  // Call c, started in m, has delivered its first i topics.
  ghost predicate Underway(m: State, s: State, c: nat, e: Event, topics: seq<string>, i: nat)
    requires i <= |topics|
  {
    && s.svc.seqNo == m.svc.seqNo + i
    && s.failed == m.failed
    && s.log == m.log + Envelopes(topics[..i], e, m.svc.seqNo)
    && s.calls == if i < |topics| then m.calls[c := Publication(e, topics, i, Ready)] else m.calls
  }

  lemma StartNext(m: State, c: nat, e: Event)
    requires c !in m.calls && ResolveTopics(e) != []
    ensures Legal(Protocol, m, [Start(c, e)])
    ensures Exec(Protocol, m, [Start(c, e)]).svc == m.svc
    ensures Underway(m, Exec(Protocol, m, [Start(c, e)]), c, e, ResolveTopics(e), 0)
  {
    hide ResolveTopics;
    Extend(Protocol, m, [], Start(c, e));
    assert [] + [Start(c, e)] == [Start(c, e)];
  }

  // Topic i goes through numbering, the broker and remembering in three steps.
  lemma DeliverNext(m: State, steps: seq<Step>, s: State, c: nat, e: Event, topics: seq<string>, i: nat)
    requires c !in m.calls && i < |topics|
    requires Legal(Protocol, m, steps) && Exec(Protocol, m, steps) == s && Underway(m, s, c, e, topics, i)
    ensures var more := steps + [AssignNumber(c)] + [BrokerAccepts(c)] + [RememberEnvelope(c)];
            && Legal(Protocol, m, more)
            && Exec(Protocol, m, more).svc == Remember(Assign(s.svc), MakeEnvelope(topics[i], e, s.svc.seqNo + 1))
            && Underway(m, Exec(Protocol, m, more), c, e, topics, i + 1)
  {
    hide MakeEnvelope;
    hide Remember;
    hide ResolveTopics;
    Extend(Protocol, m, steps, AssignNumber(c));
    Extend(Protocol, m, steps + [AssignNumber(c)], BrokerAccepts(c));
    Extend(Protocol, m, steps + [AssignNumber(c)] + [BrokerAccepts(c)], RememberEnvelope(c));
    var s3 := After(After(After(s, AssignNumber(c)), BrokerAccepts(c)), RememberEnvelope(c));
    EnvelopesExtend(topics, e, m.svc.seqNo, i);
    RememberKeepsNumber(Assign(s.svc), MakeEnvelope(topics[i], e, s.svc.seqNo + 1));
    assert s3.calls == if i + 1 < |topics| then m.calls[c := Publication(e, topics, i + 1, Ready)] else m.calls;
  }

  lemma RememberKeepsNumber(st: StreamState, env: Envelope)
    ensures Remember(st, env).seqNo == st.seqNo
  {
  }

  lemma UnderwayCalls(m: State, s: State, c: nat, e: Event, topics: seq<string>, i: nat)
    requires i < |topics| && Underway(m, s, c, e, topics, i)
    ensures c in s.calls && s.calls == m.calls[c := s.calls[c]]
    ensures s.failed == m.failed && s.svc.seqNo == m.svc.seqNo + i
  {
    hide Envelopes;
  }

  lemma NumberEffect(s: State, c: nat, e: Event, topics: seq<string>, i: nat)
    requires i < |topics| && c in s.calls && s.calls[c] == Publication(e, topics, i, Ready)
    ensures Enabled(s, AssignNumber(c))
    ensures var s' := After(s, AssignNumber(c));
            && s'.svc == Assign(s.svc) && s'.log == s.log && s'.failed == s.failed
            && c in s'.calls && s'.calls == s.calls[c := s'.calls[c]]
            && s'.calls[c].phase.Assigned? && s'.calls[c].phase.env.seqNo == s.svc.seqNo + 1
  {
  }

  lemma FailEffect(s: State, c: nat)
    requires c in s.calls && s.calls[c].phase.Assigned?
    ensures Enabled(s, PublishFails(c))
    ensures After(s, PublishFails(c)) ==
            s.(failed := s.failed + {s.calls[c].phase.env.seqNo}, calls := s.calls - {c})
  {
  }

  lemma FailNext(m: State, steps: seq<Step>, s: State, c: nat, e: Event, topics: seq<string>, i: nat)
    requires c !in m.calls && i < |topics|
    requires Legal(Protocol, m, steps) && Exec(Protocol, m, steps) == s && Underway(m, s, c, e, topics, i)
    ensures var more := steps + [AssignNumber(c)] + [PublishFails(c)];
            var s' := Exec(Protocol, m, more);
            && Legal(Protocol, m, more)
            && s'.svc == Assign(s.svc) && s'.log == s.log && s'.calls == m.calls
            && s'.failed == m.failed + {m.svc.seqNo + i + 1}
  {
    NumberEffect(s, c, e, topics, i);
    var s1 := After(s, AssignNumber(c));
    FailEffect(s1, c);
    hide *;
    ProtocolStep(m, steps, s, AssignNumber(c));
    ProtocolStep(m, steps + [AssignNumber(c)], s1, PublishFails(c));
    UnderwayCalls(m, s, c, e, topics, i);
    Replaced(m.calls, c, s.calls[c], s1.calls[c]);
  }

  lemma EnvelopesExtend(topics: seq<string>, event: Event, base: nat, i: nat)
    requires i < |topics|
    ensures Envelopes(topics[..i + 1], event, base) ==
            Envelopes(topics[..i], event, base) + [MakeEnvelope(topics[i], event, base + i + 1)]
  {
    assert topics[..i + 1][i] == topics[i];
  }
}
