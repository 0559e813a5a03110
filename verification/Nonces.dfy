// Nonces for agent wallets: per agent they only grow, whatever the clock does.
module Nonces {
  import opened Results
  import opened Text

  type NonceMap = map<string, int>

  // strings.ToLower(strings.TrimSpace(agentAddress)).
  function AgentKey(agent: string): string {
    ToLower(TrimSpace(agent))
  }

  function LastNonce(nonces: NonceMap, key: string): int {
    if key in nonces then nonces[key] else 0
  }

  // The clock in milliseconds, or one past the last nonce when the clock is not ahead of it.
  function NextNonce(last: int, at: int): int {
    if at <= last then last + 1 else at
  }

  function AfterNonce(nonces: NonceMap, agent: string, at: int): NonceMap {
    nonces[AgentKey(agent) := NextNonce(LastNonce(nonces, AgentKey(agent)), at)]
  }

  datatype Request = Request(agent: string, at: int)

  datatype Issue = Issue(key: string, nonce: int)

  function AfterRequests(rs: seq<Request>): NonceMap {
    if rs == [] then map[]
    else AfterNonce(AfterRequests(rs[..|rs| - 1]), rs[|rs| - 1].agent, rs[|rs| - 1].at)
  }

  // What each request got, in order.
  function Issued(rs: seq<Request>): (issues: seq<Issue>)
    ensures |issues| == |rs|
  {
    if rs == [] then []
    else
      var front, last := rs[..|rs| - 1], rs[|rs| - 1];
      var key := AgentKey(last.agent);
      Issued(front) + [Issue(key, NextNonce(LastNonce(AfterRequests(front), key), last.at))]
  }

  // Later nonces of an agent are greater.
  predicate Growing(issues: seq<Issue>) {
    forall i, j | 0 <= i < j < |issues| && issues[i].key == issues[j].key :: issues[i].nonce < issues[j].nonce
  }

  lemma {:induction false} IssuedGrows(rs: seq<Request>)
    ensures Growing(Issued(rs))
    ensures forall i | 0 <= i < |rs| :: Issued(rs)[i].nonce <= LastNonce(AfterRequests(rs), Issued(rs)[i].key)
  {
    hide AgentKey;
    if rs != [] {
      IssuedGrows(rs[..|rs| - 1]);
    }
  }

  // The same agent, outer spaces and letter case aside.
  predicate SameAgent(a: string, b: string) {
    EqualFold(TrimSpace(a), TrimSpace(b))
  }

  lemma {:induction false} IssuedKeys(rs: seq<Request>)
    ensures forall i | 0 <= i < |rs| :: Issued(rs)[i].key == ToLower(TrimSpace(rs[i].agent))
  {
    hide TrimSpace;
    if rs != [] {
      IssuedKeys(rs[..|rs| - 1]);
    }
  }

  // For any clock, even one running backwards, the nonces of an agent strictly increase,
  // however its address is written, so no nonce is issued to it twice.
  lemma {:induction false} NoncesNeverRepeat(rs: seq<Request>, i: nat, j: nat)
    requires i < j < |rs| && SameAgent(rs[i].agent, rs[j].agent)
    ensures Issued(rs)[i].nonce < Issued(rs)[j].nonce
  {
    IssuedGrows(rs);
    IssuedKeys(rs);
    hide TrimSpace;
  }

  // The clock readings of one agent's requests.
  function Times(rs: seq<Request>, agent: string): seq<int> {
    if rs == [] then []
    else
      var last := rs[|rs| - 1];
      Times(rs[..|rs| - 1], agent) + if SameAgent(last.agent, agent) then [last.at] else []
  }

  // peak is the greatest of n and all t_i + (n - i), for i from 1 to n.
  ghost predicate Peak(ts: seq<int>, peak: int) {
    && peak >= |ts|
    && (forall i | 0 <= i < |ts| :: peak >= Lifted(ts, i))
    && (peak == |ts| || exists i | 0 <= i < |ts| :: peak == Lifted(ts, i))
  }

  function Lifted(ts: seq<int>, i: nat): int
    requires i < |ts|
  {
    ts[i] + |ts| - 1 - i
  }

  lemma PeakStep(ts: seq<int>, last: int, at: int)
    requires Peak(ts, last)
    ensures Peak(ts + [at], NextNonce(last, at))
  {
    var more := ts + [at];
    assert Lifted(more, |ts|) == at;
    forall i | 0 <= i < |ts| ensures Lifted(more, i) == Lifted(ts, i) + 1 {
    }
    if at <= last && last != |ts| {
      var i :| 0 <= i < |ts| && last == Lifted(ts, i);
      assert NextNonce(last, at) == Lifted(more, i);
    }
  }

  // The last nonce of an agent after its requests at t_1 .. t_n is exactly
  // max(n, max over i of t_i + n - i), whatever other agents did in between.
  lemma {:induction false} NonceClosedForm(rs: seq<Request>, agent: string)
    ensures Peak(Times(rs, agent), LastNonce(AfterRequests(rs), ToLower(TrimSpace(agent))))
  {
    hide TrimSpace;
    if rs != [] {
      var front, last := rs[..|rs| - 1], rs[|rs| - 1];
      NonceClosedForm(front, agent);
      if SameAgent(last.agent, agent) {
        PeakStep(Times(front, agent), LastNonce(AfterRequests(front), ToLower(TrimSpace(agent))), last.at);
      } else {
        assert Times(front, agent) + [] == Times(front, agent);
      }
    }
  }

  // Two peaks of the same readings are equal: the closed form determines the nonce.
  lemma PeakUnique(ts: seq<int>, a: int, b: int)
    requires Peak(ts, a) && Peak(ts, b)
    ensures a == b
  {
    hide Lifted;
  }

  datatype NonceError = AgentAddressRequired

  // The upsert: a new address starts at the clock reading as it is; a known one gets the
  // larger of the reading and one past its last nonce.
  function SqlNonce(nonces: NonceMap, agent: string, at: int): Result<int, NonceError> {
    var key := AgentKey(agent);
    if key == "" then Err(AgentAddressRequired)
    else if key !in nonces then Ok(at)
    else Ok(if nonces[key] + 1 > at then nonces[key] + 1 else at)
  }

  // The upsert gives the nonce of the map exactly when the agent has one already or the
  // clock reading is positive; a blank address it refuses.
  lemma SqlNonceIff(nonces: NonceMap, agent: string, at: int)
    ensures var key := ToLower(TrimSpace(agent));
            SqlNonce(nonces, agent, at) == Ok(NextNonce(LastNonce(nonces, key), at)) <==>
              key != "" && (key in nonces || at > 0)
  {
    hide TrimSpace;
    hide ToLower;
  }

  // The upsert alone, request after request; a refused one changes nothing.
  function SqlAfter(rs: seq<Request>): NonceMap {
    if rs == [] then map[]
    else
      var before, last := SqlAfter(rs[..|rs| - 1]), rs[|rs| - 1];
      var r := SqlNonce(before, last.agent, last.at);
      if r.Ok? then before[AgentKey(last.agent) := r.value] else before
  }

  // Over every run with positive clock readings and addresses that are not blank, the two
  // stores hold the same nonces throughout.
  lemma {:induction false} SqlAgreesInEveryRun(rs: seq<Request>)
    requires forall i | 0 <= i < |rs| :: AgentKey(rs[i].agent) != "" && rs[i].at > 0
    ensures SqlAfter(rs) == AfterRequests(rs)
  {
    hide AgentKey;
    if rs != [] {
      var front, last := rs[..|rs| - 1], rs[|rs| - 1];
      SqlAgreesInEveryRun(front);
      SqlNonceIff(AfterRequests(front), last.agent, last.at);
    }
  }
}
