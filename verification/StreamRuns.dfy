// Concurrent publishers. Each publication takes a sequence number under the lock, talks to
// the broker outside it, and remembers the envelope under the lock again.
module StreamRuns {
  import opened Runs
  import opened Topics
  import opened Stream

  datatype Phase = Ready | Assigned(env: Envelope) | Accepted(env: Envelope)

  // One Publish call: its resolved topics, how many are done, and the one under way.
  datatype Publication = Publication(event: Event, topics: seq<string>, done: nat, phase: Phase)

  // `issued`, `failed`, `broker` and `log` record the past: every envelope given a number,
  // the numbers whose publication failed, what the broker took, what was remembered.
  datatype State = State(
    svc: StreamState, calls: map<nat, Publication>,
    issued: seq<Envelope>, failed: set<nat>, broker: seq<Envelope>, log: seq<Envelope>)

  datatype Step =
    | Start(c: nat, event: Event)
    | AssignNumber(c: nat)
    | PublishFails(c: nat)     // encoding failed, or the broker did
    | BrokerAccepts(c: nat)
    | RememberEnvelope(c: nat)

  function Init(): State {
    State(StreamState(0, map[]), map[], [], {}, [], [])
  }

  predicate Enabled(s: State, t: Step) {
    match t
    case Start(c, event) => c !in s.calls && ResolveTopics(event) != []
    case AssignNumber(c) => c in s.calls && s.calls[c].phase.Ready? && s.calls[c].done < |s.calls[c].topics|
    case PublishFails(c) => c in s.calls && s.calls[c].phase.Assigned?
    case BrokerAccepts(c) => c in s.calls && s.calls[c].phase.Assigned?
    case RememberEnvelope(c) => c in s.calls && s.calls[c].phase.Accepted?
  }

  function After(s: State, t: Step): State {
    if !Enabled(s, t) then s
    else
      match t
      case Start(c, event) =>
        s.(calls := s.calls[c := Publication(event, ResolveTopics(event), 0, Ready)])
      case AssignNumber(c) =>
        var p := s.calls[c];
        var env := MakeEnvelope(p.topics[p.done], p.event, s.svc.seqNo + 1);
        s.(svc := Assign(s.svc), issued := s.issued + [env], calls := s.calls[c := p.(phase := Assigned(env))])
      case PublishFails(c) =>
        s.(failed := s.failed + {s.calls[c].phase.env.seqNo}, calls := s.calls - {c})
      case BrokerAccepts(c) =>
        var p := s.calls[c];
        s.(broker := s.broker + [p.phase.env], calls := s.calls[c := p.(phase := Accepted(p.phase.env))])
      case RememberEnvelope(c) =>
        var p := s.calls[c];
        s.(svc := Remember(s.svc, p.phase.env), log := s.log + [p.phase.env],
           calls := if p.done + 1 == |p.topics| then s.calls - {c}
                    else s.calls[c := p.(done := p.done + 1, phase := Ready)])
  }

  ghost const Protocol: Machine<State, Step> := Machine((s, t) => Enabled(s, t), (s, t) => After(s, t))

  // The numbers of envelopes between assignment and remembering, and of remembered ones.
  ghost function InFlight(calls: map<nat, Publication>): set<nat> {
    set c | c in calls && !calls[c].phase.Ready? :: calls[c].phase.env.seqNo
  }

  ghost function Remembered(log: seq<Envelope>): set<nat> {
    set i | 0 <= i < |log| :: log[i].seqNo
  }

  ghost function Accounted(s: State): set<nat> {
    InFlight(s.calls) + s.failed + Remembered(s.log)
  }

  ghost predicate Numbered(s: State) {
    && |s.issued| == s.svc.seqNo
    && forall i | 0 <= i < |s.issued| :: s.issued[i].seqNo == i + 1
  }

  ghost predicate IsAssigned(s: State, env: Envelope) {
    0 < env.seqNo <= |s.issued| && s.issued[env.seqNo - 1] == env
  }

  // Every number from 1 to seq is in flight, failed or remembered, and only one of these.
  ghost predicate Partitioned(s: State) {
    && InFlight(s.calls) !! s.failed
    && InFlight(s.calls) !! Remembered(s.log)
    && s.failed !! Remembered(s.log)
    && (forall n :: n in Accounted(s) <==> 1 <= n <= s.svc.seqNo)
    && (forall i, j | 0 <= i < j < |s.log| :: s.log[i].seqNo != s.log[j].seqNo)
    && (forall c, d | c in s.calls && d in s.calls && c != d && !s.calls[c].phase.Ready? && !s.calls[d].phase.Ready? ::
          s.calls[c].phase.env.seqNo != s.calls[d].phase.env.seqNo)
  }

  // In-flight and remembered envelopes are the assigned ones; the broker took first
  // whatever was remembered.
  ghost predicate Traced(s: State) {
    && (forall c | c in s.calls && !s.calls[c].phase.Ready? :: IsAssigned(s, s.calls[c].phase.env))
    && (forall c | c in s.calls && s.calls[c].phase.Accepted? :: s.calls[c].phase.env in s.broker)
    && (forall i | 0 <= i < |s.log| :: IsAssigned(s, s.log[i]) && s.log[i] in s.broker)
  }

  // Each topic's buffer is the last 200 entries of its full log.
  ghost predicate Buffered(s: State) {
    forall topic :: Buffer(s.svc, topic) == Tail(OfTopic(s.log, topic), MAX_EVENTS)
  }

  ghost predicate Inv(s: State) {
    Numbered(s) && Partitioned(s) && Traced(s) && Buffered(s)
  }

  lemma InFlightPut(calls: map<nat, Publication>, c: nat, p: Publication)
    requires c in calls && calls[c].phase.Ready? && !p.phase.Ready?
    ensures InFlight(calls[c := p]) == InFlight(calls) + {p.phase.env.seqNo}
  {
    var calls' := calls[c := p];
    forall n | n in InFlight(calls) ensures n in InFlight(calls') {
      var d :| d in calls && !calls[d].phase.Ready? && calls[d].phase.env.seqNo == n;
      assert d in calls' && calls'[d] == calls[d];
    }
    assert c in calls' && calls'[c] == p;
  }

  lemma InFlightSame(calls: map<nat, Publication>, c: nat, p: Publication)
    requires c in calls ==> calls[c].phase.Ready? == p.phase.Ready?
    requires c in calls && !p.phase.Ready? ==> calls[c].phase.env == p.phase.env
    requires c !in calls ==> p.phase.Ready?
    ensures InFlight(calls[c := p]) == InFlight(calls)
  {
    var calls' := calls[c := p];
    forall n | n in InFlight(calls) ensures n in InFlight(calls') {
      var d :| d in calls && !calls[d].phase.Ready? && calls[d].phase.env.seqNo == n;
      assert d in calls' && !calls'[d].phase.Ready? && calls'[d].phase.env.seqNo == n;
    }
    forall n | n in InFlight(calls') ensures n in InFlight(calls) {
      var d :| d in calls' && !calls'[d].phase.Ready? && calls'[d].phase.env.seqNo == n;
      assert d in calls && !calls[d].phase.Ready? && calls[d].phase.env.seqNo == n;
    }
  }

  // Ending call c, by removal or by going back to Ready, takes its number out of flight.
  lemma InFlightDrop(s: State, c: nat, calls': map<nat, Publication>)
    requires Partitioned(s) && c in s.calls && !s.calls[c].phase.Ready?
    requires forall d | d != c :: (d in calls' <==> d in s.calls) && (d in calls' ==> calls'[d] == s.calls[d])
    requires c in calls' ==> calls'[c].phase.Ready?
    ensures InFlight(calls') == InFlight(s.calls) - {s.calls[c].phase.env.seqNo}
  {
    forall n | n in InFlight(s.calls) && n != s.calls[c].phase.env.seqNo ensures n in InFlight(calls') {
      var d :| d in s.calls && !s.calls[d].phase.Ready? && s.calls[d].phase.env.seqNo == n;
      assert d in calls' && calls'[d] == s.calls[d];
    }
    forall n | n in InFlight(calls') ensures n in InFlight(s.calls) && n != s.calls[c].phase.env.seqNo {
      var d :| d in calls' && !calls'[d].phase.Ready? && calls'[d].phase.env.seqNo == n;
      assert d in s.calls && s.calls[d] == calls'[d];
    }
  }

  lemma RememberedPut(log: seq<Envelope>, env: Envelope)
    ensures Remembered(log + [env]) == Remembered(log) + {env.seqNo}
  {
    var log' := log + [env];
    forall n | n in Remembered(log) ensures n in Remembered(log') {
      var i :| 0 <= i < |log| && log[i].seqNo == n;
      assert log'[i] == log[i];
    }
    assert log'[|log|] == env;
    forall n | n in Remembered(log') ensures n in Remembered(log) + {env.seqNo} {
      var i :| 0 <= i < |log'| && log'[i].seqNo == n;
      assert i < |log| ==> log[i].seqNo == n;
    }
  }

  lemma AssignKeeps(s: State, c: nat)
    requires Inv(s) && Enabled(s, AssignNumber(c))
    ensures Inv(After(s, AssignNumber(c)))
  {
    var p := s.calls[c];
    var env := MakeEnvelope(p.topics[p.done], p.event, s.svc.seqNo + 1);
    InFlightPut(s.calls, c, p.(phase := Assigned(env)));
    var s' := After(s, AssignNumber(c));
    assert forall e | IsAssigned(s, e) :: IsAssigned(s', e);
    assert env.seqNo !in Accounted(s);
    assert Accounted(s') == Accounted(s) + {env.seqNo};
    hide Buffer;
    hide InFlight;
    hide Remembered;
  }

  lemma FailKeeps(s: State, c: nat)
    requires Inv(s) && Enabled(s, PublishFails(c))
    ensures Inv(After(s, PublishFails(c)))
  {
    InFlightDrop(s, c, s.calls - {c});
    assert s.calls[c].phase.env.seqNo in InFlight(s.calls);
    assert Accounted(After(s, PublishFails(c))) == Accounted(s);
  }

  lemma AcceptKeeps(s: State, c: nat)
    requires Inv(s) && Enabled(s, BrokerAccepts(c))
    ensures Inv(After(s, BrokerAccepts(c)))
  {
    var s' := After(s, BrokerAccepts(c));
    InFlightSame(s.calls, c, s.calls[c].(phase := Accepted(s.calls[c].phase.env)));
    assert Accounted(s') == Accounted(s);
    hide InFlight;
    hide Remembered;
    hide Accounted;
    hide Buffer;
  }

  lemma StartKeeps(s: State, c: nat, event: Event)
    requires Inv(s) && Enabled(s, Start(c, event))
    ensures Inv(After(s, Start(c, event)))
  {
    hide ResolveTopics;
    var s' := After(s, Start(c, event));
    InFlightSame(s.calls, c, Publication(event, ResolveTopics(event), 0, Ready));
    assert Accounted(s') == Accounted(s);
    hide InFlight;
    hide Remembered;
    hide Accounted;
    hide Buffer;
  }

  lemma RememberKeeps(s: State, c: nat)
    requires Inv(s) && Enabled(s, RememberEnvelope(c))
    ensures Inv(After(s, RememberEnvelope(c)))
  {
    var s' := After(s, RememberEnvelope(c));
    var env := s.calls[c].phase.env;
    assert env.seqNo in InFlight(s.calls);
    InFlightDrop(s, c, s'.calls);
    RememberedPut(s.log, env);
    RememberNumbersApart(s, c);
    assert Accounted(s') == Accounted(s);
    hide InFlight;
    hide Remembered;
    hide Accounted;
    hide Buffer;
    hide Remember;
    RememberBuffers(s, env, s');
  }

  lemma RememberBuffers(s: State, env: Envelope, s': State)
    requires Buffered(s) && s'.svc == Remember(s.svc, env) && s'.log == s.log + [env]
    ensures Buffered(s')
  {
    forall topic ensures Buffer(s'.svc, topic) == Tail(OfTopic(s'.log, topic), MAX_EVENTS) {
      assert s'.log[..|s'.log| - 1] == s.log;
      if topic == env.topic {
        TailAppend(OfTopic(s.log, topic), env, MAX_EVENTS);
      }
    }
  }

  lemma RememberNumbersApart(s: State, c: nat)
    requires Inv(s) && Enabled(s, RememberEnvelope(c))
    ensures var log := s.log + [s.calls[c].phase.env];
            forall i, j | 0 <= i < j < |log| :: log[i].seqNo != log[j].seqNo
  {
    assert s.calls[c].phase.env.seqNo in InFlight(s.calls);
    forall i | 0 <= i < |s.log| ensures s.log[i].seqNo != s.calls[c].phase.env.seqNo {
      assert s.log[i].seqNo in Remembered(s.log);
    }
  }

  lemma StepKeeps(s: State, t: Step)
    requires Inv(s) && Enabled(s, t)
    ensures Inv(After(s, t))
  {
    match t
    case Start(c, event) => StartKeeps(s, c, event);
    case AssignNumber(c) => AssignKeeps(s, c);
    case PublishFails(c) => FailKeeps(s, c);
    case BrokerAccepts(c) => AcceptKeeps(s, c);
    case RememberEnvelope(c) => RememberKeeps(s, c);
  }

  lemma RunKeepsInv(s: State, steps: seq<Step>)
    requires Inv(s) && Legal(Protocol, s, steps)
    ensures Inv(Exec(Protocol, s, steps))
  {
    forall a, t | Inv(a) && Protocol.enabled(a, t) ensures Inv(Protocol.next(a, t)) {
      StepKeeps(a, t);
    }
    Invariant(Protocol, a => Inv(a), s, steps);
  }

  // Over every interleaving of publishers and broker failures: the numbers handed out are
  // exactly 1..seq, each once; each is in flight, failed or remembered, and only one of
  // these; nothing is remembered that the broker did not take.
  lemma EveryNumberAccountedFor(steps: seq<Step>)
    requires Legal(Protocol, Init(), steps)
    ensures var s := Exec(Protocol, Init(), steps);
            Numbered(s) && Partitioned(s) && Traced(s)
  {
    InitInv();
    RunKeepsInv(Init(), steps);
  }

  lemma InitInv()
    ensures Inv(Init())
  {
    assert forall topic :: Buffer(Init().svc, topic) == [];
  }

  // After any history, Recent shows the end of the topic's full log, as far back as the
  // limit allows: cutting the buffer at 200 is never visible.
  lemma RecentShowsFullLog(steps: seq<Step>, topic: string, limit: int)
    requires Legal(Protocol, Init(), steps)
    ensures var s := Exec(Protocol, Init(), steps);
            && Buffer(s.svc, topic) == Tail(OfTopic(s.log, topic), MAX_EVENTS)
            && Recent(s.svc, topic, limit) == Tail(OfTopic(s.log, topic), RecentLimit(limit))
  {
    InitInv();
    RunKeepsInv(Init(), steps);
    TailTail(OfTopic(Exec(Protocol, Init(), steps).log, topic), MAX_EVENTS, RecentLimit(limit));
  }

  // No envelope of the topic is between its number and being remembered.
  ghost predicate TopicClear(calls: map<nat, Publication>, topic: string) {
    forall c | c in calls && !calls[c].phase.Ready? :: calls[c].phase.env.topic != topic
  }

  // Runs in which an envelope gets its number only while no other of its topic is in
  // flight. Publications to different topics overlap freely.
  ghost const Exclusive: Machine<State, Step> :=
    Machine((s, t) => Enabled(s, t) && TopicFree(s, t), (s, t) => After(s, t))

  ghost predicate TopicFree(s: State, t: Step)
    requires Enabled(s, t)
  {
    t.AssignNumber? ==> TopicClear(s.calls, s.calls[t.c].topics[s.calls[t.c].done])
  }

  // Envelopes in flight are of different topics, and newer than what their topic remembered.
  ghost predicate FlightsApart(s: State) {
    && (forall c, d | c in s.calls && d in s.calls && c != d && !s.calls[c].phase.Ready? && !s.calls[d].phase.Ready? ::
          s.calls[c].phase.env.topic != s.calls[d].phase.env.topic)
    && (forall c, i | c in s.calls && !s.calls[c].phase.Ready? && 0 <= i < |s.log|
                      && s.log[i].topic == s.calls[c].phase.env.topic ::
          s.log[i].seqNo < s.calls[c].phase.env.seqNo)
  }

  ghost predicate Ordered(s: State) {
    TopicOrdered(s.log) && FlightsApart(s)
  }

  lemma LoggedBelow(s: State)
    requires Partitioned(s)
    ensures forall i | 0 <= i < |s.log| :: s.log[i].seqNo <= s.svc.seqNo
  {
    forall i | 0 <= i < |s.log| ensures s.log[i].seqNo <= s.svc.seqNo {
      assert s.log[i].seqNo in Accounted(s);
    }
  }

  lemma OrderedAssign(s: State, c: nat)
    requires Partitioned(s) && Ordered(s) && Enabled(s, AssignNumber(c))
    requires TopicClear(s.calls, s.calls[c].topics[s.calls[c].done])
    ensures Ordered(After(s, AssignNumber(c)))
  {
    LoggedBelow(s);
    hide Partitioned;
  }

  lemma OrderedOther(s: State, t: Step)
    requires Ordered(s) && Enabled(s, t) && !t.AssignNumber?
    ensures Ordered(After(s, t))
  {
    hide ResolveTopics;
    hide Remember;
    match t
    case Start(c, event) =>
    case PublishFails(c) =>
    case BrokerAccepts(c) =>
    case RememberEnvelope(c) =>
  }

  lemma ExclusiveStep(s: State, t: Step)
    requires Inv(s) && Ordered(s) && Exclusive.enabled(s, t)
    ensures Inv(After(s, t)) && Ordered(After(s, t))
  {
    assert Enabled(s, t) && TopicFree(s, t);
    StepKeeps(s, t);
    assert Partitioned(s);
    hide Inv;
    hide Ordered;
    hide Enabled;
    hide After;
    hide Partitioned;
    if t.AssignNumber? {
      OrderedAssign(s, t.c);
    } else {
      OrderedOther(s, t);
    }
  }

  lemma ExclusiveRunKeeps(steps: seq<Step>)
    requires Legal(Exclusive, Init(), steps)
    ensures Inv(Exec(Exclusive, Init(), steps)) && Ordered(Exec(Exclusive, Init(), steps))
  {
    InitInv();
    assert Ordered(Init());
    hide Inv;
    hide Ordered;
    forall a, t | Inv(a) && Ordered(a) && Exclusive.enabled(a, t)
      ensures Inv(Exclusive.next(a, t)) && Ordered(Exclusive.next(a, t))
    {
      ExclusiveStep(a, t);
    }
    Invariant(Exclusive, a => Inv(a) && Ordered(a), Init(), steps);
  }

  // Then every buffer is strictly increasing, and its last number is the largest the
  // topic has ever remembered.
  lemma ExclusiveBuffersIncrease(steps: seq<Step>, topic: string)
    requires Legal(Exclusive, Init(), steps)
    ensures var s := Exec(Exclusive, Init(), steps);
            var buffer := Buffer(s.svc, topic);
            && Increasing(buffer)
            && (forall e | e in s.log && e.topic == topic :: buffer != [] && e.seqNo <= buffer[|buffer| - 1].seqNo)
  {
    ExclusiveRunKeeps(steps);
    var s := Exec(Exclusive, Init(), steps);
    assert Buffered(s) && TopicOrdered(s.log);
    hide *;
    TailIncreasing(s, topic);
  }

  lemma TailIncreasing(s: State, topic: string)
    requires Buffered(s) && TopicOrdered(s.log)
    ensures var buffer := Buffer(s.svc, topic);
            && Increasing(buffer)
            && (forall e | e in s.log && e.topic == topic :: buffer != [] && e.seqNo <= buffer[|buffer| - 1].seqNo)
  {
    var full := OfTopic(s.log, topic);
    OfTopicIncreasing(s.log, topic);
    OfTopicMembers(s.log, topic);
    assert Buffer(s.svc, topic) == Tail(full, MAX_EVENTS);
    forall e | e in s.log && e.topic == topic
      ensures full != [] && e.seqNo <= full[|full| - 1].seqNo
    {
      assert e in full;
      var i :| 0 <= i < |full| && full[i] == e;
    }
  }

  predicate NoAssigns(steps: seq<Step>) {
    forall i | 0 <= i < |steps| :: !steps[i].AssignNumber?
  }

  lemma {:induction false} NoAssignsKeep(s: State, later: seq<Step>)
    requires Ordered(s) && Legal(Protocol, s, later) && NoAssigns(later)
    ensures Ordered(Exec(Protocol, s, later))
    decreases later
  {
    hide Ordered;
    hide Enabled;
    hide After;
    if later != [] {
      OrderedOther(s, later[0]);
      NoAssignsKeep(After(s, later[0]), later[1..]);
    }
  }

  lemma ProtocolStep(start: State, steps: seq<Step>, s: State, t: Step)
    requires Legal(Protocol, start, steps) && Exec(Protocol, start, steps) == s && Enabled(s, t)
    ensures Legal(Protocol, start, steps + [t]) && Exec(Protocol, start, steps + [t]) == After(s, t)
  {
    hide Enabled;
    hide After;
    Extend(Protocol, start, steps, t);
  }

  lemma AcceptEffect(s: State, c: nat)
    requires c in s.calls && s.calls[c].phase.Assigned?
    ensures Enabled(s, BrokerAccepts(c))
    ensures var s', env := After(s, BrokerAccepts(c)), s.calls[c].phase.env;
            s'.log == s.log && s'.calls == s.calls[c := s.calls[c].(phase := Accepted(env))]
  {
  }

  lemma RememberEffect(s: State, c: nat)
    requires c in s.calls && s.calls[c].phase.Accepted?
    ensures Enabled(s, RememberEnvelope(c))
    ensures var s', env := After(s, RememberEnvelope(c)), s.calls[c].phase.env;
            && s'.log == s.log + [env]
            && (forall d | d != c :: (d in s'.calls <==> d in s.calls) && (d in s.calls ==> s'.calls[d] == s.calls[d]))
  {
    hide Remember;
  }

  // An envelope in flight can always be delivered and remembered.
  lemma DeliverFlight(s: State, c: nat) returns (more: seq<Step>)
    requires c in s.calls && !s.calls[c].phase.Ready?
    ensures Legal(Protocol, s, more) && NoAssigns(more)
    ensures var s' := Exec(Protocol, s, more);
            && s'.log == s.log + [s.calls[c].phase.env]
            && (forall d | d != c :: (d in s'.calls <==> d in s.calls) && (d in s.calls ==> s'.calls[d] == s.calls[d]))
  {
    NoSteps(Protocol, s);
    hide Legal;
    hide Exec;
    hide Enabled;
    hide After;
    if s.calls[c].phase.Accepted? {
      RememberEffect(s, c);
      ProtocolStep(s, [], s, RememberEnvelope(c));
      more := [] + [RememberEnvelope(c)];
    } else {
      var s1 := After(s, BrokerAccepts(c));
      AcceptEffect(s, c);
      ProtocolStep(s, [], s, BrokerAccepts(c));
      RememberEffect(s1, c);
      ProtocolStep(s, [] + [BrokerAccepts(c)], s1, RememberEnvelope(c));
      more := [] + [BrokerAccepts(c)] + [RememberEnvelope(c)];
    }
  }

  lemma OlderLast(full: seq<Envelope>, env: Envelope, k: nat)
    requires Increasing(full) && k < |full| && full[k].seqNo > env.seqNo
    ensures !Increasing(Tail(full + [env], MAX_EVENTS))
  {
    var tail := Tail(full + [env], MAX_EVENTS);
    assert tail[|tail| - 1] == env && tail[|tail| - 2] == full[|full| - 1];
    assert k < |full| - 1 ==> full[k].seqNo < full[|full| - 1].seqNo;
  }

  // A topic that remembers an envelope after a newer one has an unordered buffer.
  lemma LateUnordered(log: seq<Envelope>, i: nat, env: Envelope)
    requires TopicOrdered(log) && i < |log| && log[i].topic == env.topic && log[i].seqNo > env.seqNo
    ensures !Increasing(Tail(OfTopic(log + [env], env.topic), MAX_EVENTS))
  {
    var full := OfTopic(log, env.topic);
    OfTopicIncreasing(log, env.topic);
    OfTopicMembers(log, env.topic);
    assert (log + [env])[..|log|] == log;
    assert OfTopic(log + [env], env.topic) == full + [env];
    hide *;
    assert log[i] in full;
    var k :| 0 <= k < |full| && full[k] == log[i];
    OlderLast(full, env, k);
  }

  ghost predicate Unordered(svc: StreamState) {
    exists topic :: !Increasing(Buffer(svc, topic))
  }

  lemma LateFlightReorders(s: State, c: nat, i: nat) returns (later: seq<Step>)
    requires Inv(s) && TopicOrdered(s.log) && c in s.calls && !s.calls[c].phase.Ready? && i < |s.log|
    requires s.log[i].topic == s.calls[c].phase.env.topic && s.log[i].seqNo > s.calls[c].phase.env.seqNo
    ensures Legal(Protocol, s, later) && NoAssigns(later) && Unordered(Exec(Protocol, s, later).svc)
  {
    hide Legal;
    hide Exec;
    hide Increasing;
    var env := s.calls[c].phase.env;
    later := DeliverFlight(s, c);
    RunKeepsInv(s, later);
    LateUnordered(s.log, i, env);
    assert Buffered(Exec(Protocol, s, later));
    assert !Increasing(Buffer(Exec(Protocol, s, later).svc, env.topic));
  }

  lemma NumbersApart(s: State)
    requires Inv(s)
    ensures forall c, i | c in s.calls && !s.calls[c].phase.Ready? && 0 <= i < |s.log| ::
              s.log[i].seqNo != s.calls[c].phase.env.seqNo
    ensures forall c, d | c in s.calls && d in s.calls && c != d
                      && !s.calls[c].phase.Ready? && !s.calls[d].phase.Ready? ::
              s.calls[c].phase.env.seqNo != s.calls[d].phase.env.seqNo
  {
    forall c, i | c in s.calls && !s.calls[c].phase.Ready? && 0 <= i < |s.log|
      ensures s.log[i].seqNo != s.calls[c].phase.env.seqNo
    {
      assert s.log[i].seqNo in Remembered(s.log);
      assert s.calls[c].phase.env.seqNo in InFlight(s.calls);
    }
  }

  lemma OvertakingReorders(s: State, older: nat, newer: nat) returns (later: seq<Step>)
    requires Inv(s) && TopicOrdered(s.log) && older in s.calls && newer in s.calls && older != newer
    requires !s.calls[older].phase.Ready? && !s.calls[newer].phase.Ready?
    requires s.calls[older].phase.env.topic == s.calls[newer].phase.env.topic
    requires s.calls[older].phase.env.seqNo < s.calls[newer].phase.env.seqNo
    requires TopicOrdered(s.log + [s.calls[newer].phase.env])
    ensures Legal(Protocol, s, later) && NoAssigns(later) && Unordered(Exec(Protocol, s, later).svc)
  {
    hide *;
    var first := DeliverFlight(s, newer);
    RunKeepsInv(s, first);
    var s1 := Exec(Protocol, s, first);
    assert s1.log[|s.log|] == s.calls[newer].phase.env;
    var second := LateFlightReorders(s1, older, |s.log|);
    Append(Protocol, s, first, second);
    NoAssignsAppend(first, second);
    later := first + second;
  }

  lemma NoAssignsAppend(xs: seq<Step>, ys: seq<Step>)
    requires NoAssigns(xs) && NoAssigns(ys)
    ensures NoAssigns(xs + ys)
  {
  }

  // A newer envelope put behind its topic's entries keeps them in order.
  lemma NewerOrdered(log: seq<Envelope>, env: Envelope)
    requires TopicOrdered(log)
    requires forall i | 0 <= i < |log| && log[i].topic == env.topic :: log[i].seqNo < env.seqNo
    ensures TopicOrdered(log + [env])
  {
  }

  lemma SharedTopicReorders(s: State) returns (later: seq<Step>)
    requires Inv(s) && TopicOrdered(s.log) && !FlightsApart(s)
    ensures Legal(Protocol, s, later) && NoAssigns(later) && Unordered(Exec(Protocol, s, later).svc)
  {
    NumbersApart(s);
    hide Legal;
    hide Exec;
    hide Inv;
    hide Unordered;
    hide NoAssigns;
    hide TopicOrdered;
    if c, i :| c in s.calls && !s.calls[c].phase.Ready? && 0 <= i < |s.log|
               && s.log[i].topic == s.calls[c].phase.env.topic && s.log[i].seqNo >= s.calls[c].phase.env.seqNo {
      later := LateFlightReorders(s, c, i);
    } else {
      var c, d :| c in s.calls && d in s.calls && c != d && !s.calls[c].phase.Ready? && !s.calls[d].phase.Ready?
                  && s.calls[c].phase.env.topic == s.calls[d].phase.env.topic;
      NewerOrdered(s.log, s.calls[c].phase.env);
      NewerOrdered(s.log, s.calls[d].phase.env);
      if s.calls[c].phase.env.seqNo < s.calls[d].phase.env.seqNo {
        later := OvertakingReorders(s, c, d);
      } else {
        later := OvertakingReorders(s, d, c);
      }
    }
  }

  // Exactly from which reachable states, buffers being in order, envelopes that already
  // have their numbers can bring a buffer out of order: those in which two of one topic are
  // in flight, or one that is older than what its topic remembered.
  lemma ReorderIff(before: seq<Step>)
    requires Legal(Protocol, Init(), before) && TopicOrdered(Exec(Protocol, Init(), before).log)
    ensures var s := Exec(Protocol, Init(), before);
            (exists later :: Legal(Protocol, s, later) && NoAssigns(later) && Unordered(Exec(Protocol, s, later).svc))
            <==> !FlightsApart(s)
  {
    var s := Exec(Protocol, Init(), before);
    InitInv();
    RunKeepsInv(Init(), before);
    hide Legal;
    hide Exec;
    hide Inv;
    hide NoAssigns;
    hide TopicOrdered;
    hide FlightsApart;
    hide Unordered;
    if FlightsApart(s) {
      forall later | Legal(Protocol, s, later) && NoAssigns(later) ensures !Unordered(Exec(Protocol, s, later).svc) {
        RunKeepsInv(s, later);
        NoAssignsKeep(s, later);
        OrderedBuffers(Exec(Protocol, s, later));
      }
    } else {
      var later := SharedTopicReorders(s);
    }
  }

  lemma OrderedBuffers(s: State)
    requires Inv(s) && Ordered(s)
    ensures !Unordered(s.svc)
  {
    assert Buffered(s) && TopicOrdered(s.log);
    hide Inv;
    hide Ordered;
    hide TopicOrdered;
    hide Buffered;
    hide Increasing;
    hide Buffer;
    forall topic ensures Increasing(Buffer(s.svc, topic)) {
      TailIncreasing(s, topic);
    }
  }

  // Two publishers whose windows overlap can be remembered out of order: the buffer ends
  // with number 1 although number 2 was remembered.
  lemma OverlapCanReorder(e: Event)
    requires e.topic != ""
    ensures var steps := OverlappingSteps(e);
            var s := Exec(Protocol, Init(), steps);
            && Legal(Protocol, Init(), steps)
            && Buffer(s.svc, e.topic) == [MakeEnvelope(e.topic, e, 2), MakeEnvelope(e.topic, e, 1)]
  {
    var steps, states := OverlappingSteps(e), OverlappingStates(e);
    hide MakeEnvelope;
    forall i | 0 <= i < |steps| ensures Enabled(states[i], steps[i]) && After(states[i], steps[i]) == states[i + 1] {
      OverlappingStep(e, i);
    }
    Trace(Protocol, states, steps);
  }

  lemma OverlappingStep(e: Event, i: nat)
    requires e.topic != "" && i < 8
    ensures var steps, states := OverlappingSteps(e), OverlappingStates(e);
            Enabled(states[i], steps[i]) && After(states[i], steps[i]) == states[i + 1]
  {
    hide MakeEnvelope;
    if i == 5 || i == 7 {
      RememberingStep(e, i);
    } else {
      hide Tail;
      var steps, states := OverlappingSteps(e), OverlappingStates(e);
      assert After(states[i], steps[i]).calls == states[i + 1].calls;
    }
  }

  lemma RememberingStep(e: Event, i: nat)
    requires e.topic != "" && (i == 5 || i == 7)
    ensures var steps, states := OverlappingSteps(e), OverlappingStates(e);
            Enabled(states[i], steps[i]) && After(states[i], steps[i]) == states[i + 1]
  {
    var e1, e2 := MakeEnvelope(e.topic, e, 1), MakeEnvelope(e.topic, e, 2);
    assert e1.topic == e.topic && e2.topic == e.topic;
    hide MakeEnvelope;
    assert [] + [e2] == [e2] && [e2] + [e1] == [e2, e1];
    assert Tail([e2], MAX_EVENTS) == [e2] && Tail([e2, e1], MAX_EVENTS) == [e2, e1];
    hide Tail;
    var steps, states := OverlappingSteps(e), OverlappingStates(e);
    var s' := After(states[i], steps[i]);
    assert s'.calls == states[i + 1].calls;
    assert s'.svc.events == states[i + 1].svc.events;
  }

  function OverlappingStates(e: Event): seq<State> {
    var e1, e2 := MakeEnvelope(e.topic, e, 1), MakeEnvelope(e.topic, e, 2);
    var p := Publication(e, [e.topic], 0, Ready);
    var p1, p2 := p.(phase := Assigned(e1)), p.(phase := Assigned(e2));
    var q1, q2 := p.(phase := Accepted(e1)), p.(phase := Accepted(e2));
    var none: map<string, seq<Envelope>> := map[];
    [ Init(),
      State(StreamState(0, none), map[0 := p], [], {}, [], []),
      State(StreamState(0, none), map[0 := p, 1 := p], [], {}, [], []),
      State(StreamState(1, none), map[0 := p1, 1 := p], [e1], {}, [], []),
      State(StreamState(2, none), map[0 := p1, 1 := p2], [e1, e2], {}, [], []),
      State(StreamState(2, none), map[0 := p1, 1 := q2], [e1, e2], {}, [e2], []),
      State(StreamState(2, map[e.topic := [e2]]), map[0 := p1], [e1, e2], {}, [e2], [e2]),
      State(StreamState(2, map[e.topic := [e2]]), map[0 := q1], [e1, e2], {}, [e2, e1], [e2]),
      State(StreamState(2, map[e.topic := [e2, e1]]), map[], [e1, e2], {}, [e2, e1], [e2, e1]) ]
  }

  function OverlappingSteps(e: Event): seq<Step> {
    [Start(0, e), Start(1, e), AssignNumber(0), AssignNumber(1),
     BrokerAccepts(1), RememberEnvelope(1), BrokerAccepts(0), RememberEnvelope(0)]
  }
}
