// Envelopes, their sequence numbers and the bounded buffer of recent ones per topic.
module Stream {
  import opened Clock
  import opened Topics

  datatype Envelope = Envelope(
    id: string, topic: string, kind: Kind, source: string, aggregateId: string,
    userId: string, chainId: string, token: string, ts: int, seqNo: nat, payload: Payload)

  datatype StreamState = StreamState(seqNo: nat, events: map<string, seq<Envelope>>)

  const MAX_EVENTS: nat := 200
  const DEFAULT_RECENT: nat := 50

  function MakeEnvelope(topic: string, event: Event, n: nat): Envelope {
    Envelope(event.id, topic, event.kind, event.source, event.aggregateId, event.userId,
             event.chainId, event.token, event.createdAt / SECOND, n, event.payload)
  }

  // The last k elements.
  function Tail<T>(s: seq<T>, k: nat): (r: seq<T>)
    ensures |r| == if |s| > k then k else |s|
  {
    if |s| > k then s[|s| - k..] else s
  }

  function Buffer(st: StreamState, topic: string): seq<Envelope> {
    if topic in st.events then st.events[topic] else []
  }

  function Assign(st: StreamState): StreamState {
    st.(seqNo := st.seqNo + 1)
  }

  function Remember(st: StreamState, envelope: Envelope): StreamState {
    st.(events := st.events[envelope.topic := Tail(Buffer(st, envelope.topic) + [envelope], MAX_EVENTS)])
  }

  function RecentLimit(limit: int): (k: nat)
    ensures 0 < k <= MAX_EVENTS
  {
    if limit <= 0 || limit > MAX_EVENTS then DEFAULT_RECENT else limit
  }

  function Recent(st: StreamState, topic: string, limit: int): seq<Envelope> {
    Tail(Buffer(st, topic), RecentLimit(limit))
  }

  // The entries of a log that belong to one topic, in order.
  function OfTopic(log: seq<Envelope>, topic: string): seq<Envelope> {
    if log == [] then []
    else
      var last := log[|log| - 1];
      OfTopic(log[..|log| - 1], topic) + if last.topic == topic then [last] else []
  }

  // Cutting to the last k before appending loses nothing the last k would show.
  lemma TailAppend<T>(s: seq<T>, x: T, k: nat)
    ensures Tail(Tail(s, k) + [x], k) == Tail(s + [x], k)
  {
  }

  // The last j of the last k, for j <= k.
  lemma TailTail<T>(s: seq<T>, k: nat, j: nat)
    requires j <= k
    ensures Tail(Tail(s, k), j) == Tail(s, j)
  {
  }

  predicate Increasing(s: seq<Envelope>) {
    forall i, j | 0 <= i < j < |s| :: s[i].seqNo < s[j].seqNo
  }

  lemma {:induction false} OfTopicMembers(log: seq<Envelope>, topic: string)
    ensures forall e :: e in OfTopic(log, topic) <==> e in log && e.topic == topic
  {
    if log != [] {
      var front := log[..|log| - 1];
      OfTopicMembers(front, topic);
      assert log == front + [log[|log| - 1]];
    }
  }

  // Entries of one topic come in the order of their numbers.
  predicate TopicOrdered(log: seq<Envelope>) {
    forall i, j | 0 <= i < j < |log| && log[i].topic == log[j].topic :: log[i].seqNo < log[j].seqNo
  }

  lemma {:induction false} OfTopicIncreasing(log: seq<Envelope>, topic: string)
    requires TopicOrdered(log)
    ensures Increasing(OfTopic(log, topic))
  {
    if log != [] {
      var front, last := log[..|log| - 1], log[|log| - 1];
      OfTopicIncreasing(front, topic);
      OfTopicMembers(front, topic);
      forall e | e in OfTopic(front, topic) && last.topic == topic ensures e.seqNo < last.seqNo {
        var i :| 0 <= i < |front| && front[i] == e;
        assert log[i] == e;
      }
      assert forall i | 0 <= i < |OfTopic(front, topic)| :: OfTopic(front, topic)[i] in OfTopic(front, topic);
    }
  }
}
