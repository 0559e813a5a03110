// Interleaved logins, refreshes and logouts. Finding, issuing and storing are separate
// steps, and other calls run between them.
module SessionRuns {
  import opened Results
  import opened Runs
  import opened Clock
  import opened Sessions

  datatype Call =
    | LoginIssued(session: Session)
    | RefreshFound(token: string, id: string)
    | RefreshIssued(token: string, id: string, minted: string, expiresAt: Time)
    | LogoutFound(id: string)

  // `tokens` and `ids` are those drawn so far; `retired` the hashes that a rotation took
  // out of their session; `granted` each refresh that succeeded, presented and new token.
  datatype State = State(
    sessions: SessionMap, calls: map<nat, Call>, tokens: set<string>, ids: set<string>,
    retired: set<TokenHash>, granted: seq<(string, string)>)

  datatype Step =
    | LoginIssue(c: nat, session: Session)
    | LoginStore(c: nat)
    | RefreshFind(c: nat, token: string, now: Time, session: Session)
    | RefreshIssue(c: nat, minted: string, expiresAt: Time)
    | RefreshRotate(c: nat, now: Time)
    | LogoutFind(c: nat, token: string, now: Time, session: Session)
    | LogoutRevoke(c: nat, now: Time)
    | Abandon(c: nat)

  function Init(): State {
    State(map[], map[], {}, {}, {}, [])
  }

  ghost predicate Enabled(s: State, t: Step) {
    match t
    case LoginIssue(c, session) =>
      && c !in s.calls && session.id !in s.ids && session.refreshTokenHash.token !in s.tokens
      && session.revokedAt.None?
    case LoginStore(c) => c in s.calls && s.calls[c].LoginIssued?
    case RefreshFind(c, token, now, session) =>
      c !in s.calls && FindReturns(s.sessions, HmacOf(token), now, Some(session))
    case RefreshIssue(c, minted, _) => c in s.calls && s.calls[c].RefreshFound? && minted !in s.tokens
    case RefreshRotate(c, _) => c in s.calls && s.calls[c].RefreshIssued?
    case LogoutFind(c, token, now, session) =>
      c !in s.calls && FindReturns(s.sessions, HmacOf(token), now, Some(session))
    case LogoutRevoke(c, _) => c in s.calls && s.calls[c].LogoutFound?
    case Abandon(c) => c in s.calls
  }

  ghost function After(s: State, t: Step): State {
    if !Enabled(s, t) then s
    else
      match t
      case LoginIssue(c, session) =>
        s.(calls := s.calls[c := LoginIssued(session)], ids := s.ids + {session.id},
           tokens := s.tokens + {session.refreshTokenHash.token})
      case LoginStore(c) =>
        s.(sessions := s.sessions[s.calls[c].session.id := s.calls[c].session], calls := s.calls - {c})
      case RefreshFind(c, token, _, session) => s.(calls := s.calls[c := RefreshFound(token, session.id)])
      case RefreshIssue(c, minted, expiresAt) =>
        s.(calls := s.calls[c := RefreshIssued(s.calls[c].token, s.calls[c].id, minted, expiresAt)],
           tokens := s.tokens + {minted})
      case RefreshRotate(c, now) =>
        var call := s.calls[c];
        s.(sessions := AfterRotate(s.sessions, call.id, HmacOf(call.minted), call.expiresAt, now),
           calls := s.calls - {c},
           retired := if call.id in s.sessions then s.retired + {s.sessions[call.id].refreshTokenHash} else s.retired,
           granted := s.granted + [(call.token, call.minted)])
      case LogoutFind(c, _, _, session) => s.(calls := s.calls[c := LogoutFound(session.id)])
      case LogoutRevoke(c, now) =>
        s.(sessions := AfterRevoke(s.sessions, s.calls[c].id, now), calls := s.calls - {c})
      case Abandon(c) => s.(calls := s.calls - {c})
  }

  ghost const Protocol: Machine<State, Step> := Machine((s, t) => Enabled(s, t), (s, t) => After(s, t))

  // The hash a call will install, when it has drawn one.
  function Pending(call: Call): Option<TokenHash> {
    match call
    case LoginIssued(session) => Some(session.refreshTokenHash)
    case RefreshIssued(_, _, minted, _) => Some(HmacOf(minted))
    case _ => None
  }

  // Installed, pending and retired hashes are disjoint, and distinct sessions and calls
  // have distinct ones; all of them belong to drawn tokens.
  ghost predicate HashesApart(s: State) {
    && (forall i, j | i in s.sessions && j in s.sessions && i != j ::
          s.sessions[i].refreshTokenHash != s.sessions[j].refreshTokenHash)
    && (forall c, d | c in s.calls && d in s.calls && c != d && Pending(s.calls[c]).Some? ::
          Pending(s.calls[c]) != Pending(s.calls[d]))
    && (forall c, i | c in s.calls && i in s.sessions :: Pending(s.calls[c]) != Some(s.sessions[i].refreshTokenHash))
    && (forall i | i in s.sessions :: s.sessions[i].refreshTokenHash !in s.retired)
    && (forall c | c in s.calls && Pending(s.calls[c]).Some? :: Pending(s.calls[c]).value !in s.retired)
  }

  ghost predicate HashesDrawn(s: State) {
    && (forall i | i in s.sessions :: s.sessions[i].refreshTokenHash.token in s.tokens)
    && (forall c | c in s.calls && Pending(s.calls[c]).Some? :: Pending(s.calls[c]).value.token in s.tokens)
    && (forall h | h in s.retired :: h.token in s.tokens)
  }

  ghost predicate IdsDistinct(s: State) {
    && (forall i | i in s.sessions :: s.sessions[i].id == i && i in s.ids)
    && (forall c | c in s.calls && s.calls[c].LoginIssued? ::
          s.calls[c].session.id in s.ids && s.calls[c].session.id !in s.sessions)
    && (forall c, d | c in s.calls && d in s.calls && c != d && s.calls[c].LoginIssued? && s.calls[d].LoginIssued? ::
          s.calls[c].session.id != s.calls[d].session.id)
  }

  // What a refresh presented is still installed or was retired since.
  ghost predicate Found(s: State, call: Call) {
    match call
    case LoginIssued(_) => true
    case LogoutFound(id) => id in s.sessions
    case RefreshFound(token, id) => id in s.sessions && Spent(s.sessions, s.retired, token, id)
    case RefreshIssued(token, id, _, _) => id in s.sessions && Spent(s.sessions, s.retired, token, id)
  }

  ghost predicate Spent(sessions: SessionMap, retired: set<TokenHash>, token: string, id: string)
    requires id in sessions
  {
    sessions[id].refreshTokenHash == HmacOf(token) || HmacOf(token) in retired
  }

  ghost predicate AllFound(s: State) {
    forall c | c in s.calls :: Found(s, s.calls[c])
  }

  // Every presented token of a refresh that succeeded is retired.
  ghost predicate GrantsRetired(s: State) {
    forall k | 0 <= k < |s.granted| :: HmacOf(s.granted[k].0) in s.retired
  }

  ghost predicate Inv(s: State) {
    HashesApart(s) && HashesDrawn(s) && IdsDistinct(s) && AllFound(s) && GrantsRetired(s)
  }

  // Sessions stay, revocations are not taken back, retired hashes stay retired.
  ghost predicate Keeps(a: State, b: State) {
    && (forall i | i in a.sessions :: i in b.sessions
          && (a.sessions[i].revokedAt.Some? ==> b.sessions[i].revokedAt.Some?))
    && a.retired <= b.retired
    && |a.granted| <= |b.granted|
  }

  ghost predicate Kept(s: State, s': State) {
    Inv(s') && Keeps(s, s')
  }

  lemma LoginIssueApart(s: State, c: nat, session: Session)
    requires Inv(s) && Enabled(s, LoginIssue(c, session))
    ensures HashesApart(After(s, LoginIssue(c, session)))
  {
    hide AllFound;
    hide GrantsRetired;
    hide IdsDistinct;
  }

  lemma LoginIssueRest(s: State, c: nat, session: Session)
    requires Inv(s) && Enabled(s, LoginIssue(c, session))
    ensures var s' := After(s, LoginIssue(c, session));
            HashesDrawn(s') && IdsDistinct(s') && AllFound(s') && GrantsRetired(s') && Keeps(s, s')
  {
    hide HashesApart;
    hide Spent;
  }

  lemma LoginIssueKeeps(s: State, c: nat, session: Session)
    requires Inv(s) && Enabled(s, LoginIssue(c, session))
    ensures Kept(s, After(s, LoginIssue(c, session)))
  {
    LoginIssueApart(s, c, session);
    LoginIssueRest(s, c, session);
    hide HashesApart;
    hide HashesDrawn;
    hide IdsDistinct;
    hide AllFound;
    hide GrantsRetired;
    hide Keeps;
    hide After;
  }

  lemma LoginStoreApart(s: State, c: nat)
    requires Inv(s) && Enabled(s, LoginStore(c))
    ensures HashesApart(After(s, LoginStore(c)))
  {
    hide AllFound;
    hide GrantsRetired;
    hide HashesDrawn;
  }

  lemma LoginStoreRest(s: State, c: nat)
    requires Inv(s) && Enabled(s, LoginStore(c))
    ensures var s' := After(s, LoginStore(c));
            HashesDrawn(s') && IdsDistinct(s') && AllFound(s') && GrantsRetired(s') && Keeps(s, s')
  {
    hide HashesApart;
  }

  lemma LoginStoreKeeps(s: State, c: nat)
    requires Inv(s) && Enabled(s, LoginStore(c))
    ensures Kept(s, After(s, LoginStore(c)))
  {
    LoginStoreApart(s, c);
    LoginStoreRest(s, c);
    hide HashesApart;
    hide HashesDrawn;
    hide IdsDistinct;
    hide AllFound;
    hide GrantsRetired;
    hide Keeps;
    hide After;
  }

  lemma FoundIsStored(s: State, hash: TokenHash, now: Time, session: Session)
    requires Inv(s) && FindReturns(s.sessions, hash, now, Some(session))
    ensures session.id in s.sessions && s.sessions[session.id].refreshTokenHash == hash
  {
    hide HashesApart;
    hide HashesDrawn;
    hide AllFound;
    hide GrantsRetired;
    var id :| id in s.sessions && s.sessions[id] == session;
  }

  // A call that starts holding a session it found.
  lemma FindKeeps(s: State, c: nat, call: Call)
    requires Inv(s) && c !in s.calls && Found(s, call) && Pending(call).None? && !call.LoginIssued?
    ensures Kept(s, s.(calls := s.calls[c := call]))
  {
    hide Spent;
  }

  lemma RefreshFindKeeps(s: State, c: nat, token: string, now: Time, session: Session)
    requires Inv(s) && Enabled(s, RefreshFind(c, token, now, session))
    ensures Kept(s, After(s, RefreshFind(c, token, now, session)))
  {
    FoundIsStored(s, HmacOf(token), now, session);
    hide Inv;
    hide Kept;
    hide FindReturns;
    FindKeeps(s, c, RefreshFound(token, session.id));
  }

  lemma LogoutFindKeeps(s: State, c: nat, token: string, now: Time, session: Session)
    requires Inv(s) && Enabled(s, LogoutFind(c, token, now, session))
    ensures Kept(s, After(s, LogoutFind(c, token, now, session)))
  {
    FoundIsStored(s, HmacOf(token), now, session);
    hide Inv;
    hide Kept;
    hide FindReturns;
    FindKeeps(s, c, LogoutFound(session.id));
  }

  lemma RefreshIssueApart(s: State, c: nat, minted: string, expiresAt: Time)
    requires Inv(s) && Enabled(s, RefreshIssue(c, minted, expiresAt))
    ensures HashesApart(After(s, RefreshIssue(c, minted, expiresAt)))
  {
    hide AllFound;
    hide GrantsRetired;
    hide IdsDistinct;
  }

  lemma RefreshIssueRest(s: State, c: nat, minted: string, expiresAt: Time)
    requires Inv(s) && Enabled(s, RefreshIssue(c, minted, expiresAt))
    ensures var s' := After(s, RefreshIssue(c, minted, expiresAt));
            HashesDrawn(s') && IdsDistinct(s') && AllFound(s') && GrantsRetired(s') && Keeps(s, s')
  {
    hide HashesApart;
    hide Spent;
  }

  lemma RefreshIssueKeeps(s: State, c: nat, minted: string, expiresAt: Time)
    requires Inv(s) && Enabled(s, RefreshIssue(c, minted, expiresAt))
    ensures Kept(s, After(s, RefreshIssue(c, minted, expiresAt)))
  {
    RefreshIssueApart(s, c, minted, expiresAt);
    RefreshIssueRest(s, c, minted, expiresAt);
    hide HashesApart;
    hide HashesDrawn;
    hide IdsDistinct;
    hide AllFound;
    hide GrantsRetired;
    hide Keeps;
    hide After;
  }

  lemma RotateApart(s: State, c: nat, now: Time)
    requires Inv(s) && Enabled(s, RefreshRotate(c, now))
    ensures HashesApart(After(s, RefreshRotate(c, now)))
  {
    assert Found(s, s.calls[c]);
    hide AllFound;
    hide GrantsRetired;
    hide HashesDrawn;
    hide IdsDistinct;
    hide Spent;
  }

  lemma RotateFound(s: State, c: nat, now: Time)
    requires Inv(s) && Enabled(s, RefreshRotate(c, now))
    ensures var s' := After(s, RefreshRotate(c, now)); AllFound(s') && GrantsRetired(s') && Keeps(s, s')
  {
    assert Found(s, s.calls[c]);
    hide HashesApart;
    hide HashesDrawn;
    hide IdsDistinct;
  }

  lemma RotateRest(s: State, c: nat, now: Time)
    requires Inv(s) && Enabled(s, RefreshRotate(c, now))
    ensures var s' := After(s, RefreshRotate(c, now)); HashesDrawn(s') && IdsDistinct(s')
  {
    assert Found(s, s.calls[c]);
    hide HashesApart;
    hide AllFound;
    hide GrantsRetired;
    hide Spent;
  }

  lemma RefreshRotateKeeps(s: State, c: nat, now: Time)
    requires Inv(s) && Enabled(s, RefreshRotate(c, now))
    ensures Kept(s, After(s, RefreshRotate(c, now)))
  {
    RotateApart(s, c, now);
    RotateFound(s, c, now);
    RotateRest(s, c, now);
    hide HashesApart;
    hide HashesDrawn;
    hide IdsDistinct;
    hide AllFound;
    hide GrantsRetired;
    hide Keeps;
    hide After;
  }

  // The same sessions with the same hashes, none with its revocation taken back.
  ghost predicate SameTokens(before: SessionMap, after: SessionMap) {
    && after.Keys == before.Keys
    && forall i | i in before ::
         && after[i].id == before[i].id && after[i].refreshTokenHash == before[i].refreshTokenHash
         && (before[i].revokedAt.Some? ==> after[i].revokedAt.Some?)
  }

  lemma EndKeepsHashes(s: State, c: nat, sessions': SessionMap)
    requires HashesApart(s) && HashesDrawn(s) && SameTokens(s.sessions, sessions')
    ensures var s' := s.(sessions := sessions', calls := s.calls - {c}); HashesApart(s') && HashesDrawn(s')
  {
    hide Pending;
  }

  lemma EndKeepsCalls(s: State, c: nat, sessions': SessionMap)
    requires IdsDistinct(s) && AllFound(s) && SameTokens(s.sessions, sessions')
    ensures var s' := s.(sessions := sessions', calls := s.calls - {c});
            IdsDistinct(s') && AllFound(s') && Keeps(s, s')
  {
    var s' := s.(sessions := sessions', calls := s.calls - {c});
    forall d | d in s'.calls ensures Found(s', s'.calls[d]) {
      assert Found(s, s.calls[d]);
    }
  }

  // A call that ends, leaving every hash in its session.
  lemma EndKeeps(s: State, c: nat, sessions': SessionMap)
    requires Inv(s) && SameTokens(s.sessions, sessions')
    ensures Kept(s, s.(sessions := sessions', calls := s.calls - {c}))
  {
    EndKeepsHashes(s, c, sessions');
    EndKeepsCalls(s, c, sessions');
    hide HashesApart;
    hide HashesDrawn;
    hide IdsDistinct;
    hide AllFound;
    hide Keeps;
  }

  lemma LogoutRevokeKeeps(s: State, c: nat, now: Time)
    requires Inv(s) && Enabled(s, LogoutRevoke(c, now))
    ensures Kept(s, After(s, LogoutRevoke(c, now)))
  {
    hide Inv;
    hide Kept;
    EndKeeps(s, c, AfterRevoke(s.sessions, s.calls[c].id, now));
  }

  lemma AbandonKeeps(s: State, c: nat)
    requires Inv(s) && Enabled(s, Abandon(c))
    ensures Kept(s, After(s, Abandon(c)))
  {
    hide Inv;
    hide Kept;
    EndKeeps(s, c, s.sessions);
  }

  lemma StepKeeps(s: State, t: Step)
    requires Inv(s) && Enabled(s, t)
    ensures Kept(s, After(s, t))
  {
    hide *;
    match t
    case LoginIssue(c, session) => LoginIssueKeeps(s, c, session);
    case LoginStore(c) => LoginStoreKeeps(s, c);
    case RefreshFind(c, token, now, session) => RefreshFindKeeps(s, c, token, now, session);
    case RefreshIssue(c, minted, expiresAt) => RefreshIssueKeeps(s, c, minted, expiresAt);
    case RefreshRotate(c, now) => RefreshRotateKeeps(s, c, now);
    case LogoutFind(c, token, now, session) => LogoutFindKeeps(s, c, token, now, session);
    case LogoutRevoke(c, now) => LogoutRevokeKeeps(s, c, now);
    case Abandon(c) => AbandonKeeps(s, c);
  }

  lemma RunKeeps(s: State, steps: seq<Step>)
    requires Inv(s) && Legal(Protocol, s, steps)
    ensures Kept(s, Exec(Protocol, s, steps))
  {
    forall a, t | Inv(a) && Protocol.enabled(a, t)
      ensures Inv(Protocol.next(a, t)) && Keeps(a, Protocol.next(a, t))
    {
      StepKeeps(a, t);
    }
    hide Inv;
    Progress(Protocol, a => Inv(a), (a: State, b: State) => Keeps(a, b), s, steps);
  }

  lemma InitInv()
    ensures Inv(Init())
  {
  }

  // Over every interleaving installed, pending and retired hashes stay apart, and distinct
  // sessions keep distinct hashes.
  lemma HashesStayApart(steps: seq<Step>)
    requires Legal(Protocol, Init(), steps)
    ensures HashesApart(Exec(Protocol, Init(), steps))
  {
    InitInv();
    RunKeeps(Init(), steps);
  }

  // A token that a rotation took out of its session is never found again.
  lemma RetiredNeverFound(before: seq<Step>, later: seq<Step>, hash: TokenHash, now: Time, session: Session)
    requires Legal(Protocol, Init(), before + later)
    requires hash in Exec(Protocol, Init(), before).retired
    ensures !FindReturns(Exec(Protocol, Init(), before + later).sessions, hash, now, Some(session))
  {
    Append(Protocol, Init(), before, later);
    InitInv();
    RunKeeps(Init(), before);
    RunKeeps(Exec(Protocol, Init(), before), later);
  }

  // Single use: once a refresh has succeeded, nobody finds a session with the token that it
  // presented, whatever the other calls do.
  lemma PresentedTokenUsedUp(before: seq<Step>, later: seq<Step>, k: nat, now: Time, session: Session)
    requires Legal(Protocol, Init(), before + later)
    requires k < |Exec(Protocol, Init(), before).granted|
    ensures var token := Exec(Protocol, Init(), before).granted[k].0;
            !FindReturns(Exec(Protocol, Init(), before + later).sessions, HmacOf(token), now, Some(session))
  {
    Append(Protocol, Init(), before, later);
    InitInv();
    RunKeeps(Init(), before);
    var s := Exec(Protocol, Init(), before);
    assert HmacOf(s.granted[k].0) in s.retired;
    RetiredNeverFound(before, later, HmacOf(s.granted[k].0), now, session);
  }

  // Once a session is revoked no find returns it, for any token at any time, even when a
  // rotation that found it earlier lands after the revocation.
  lemma RevokedNeverFound(before: seq<Step>, later: seq<Step>, id: string, hash: TokenHash, now: Time, session: Session)
    requires Legal(Protocol, Init(), before + later)
    requires var s := Exec(Protocol, Init(), before); id in s.sessions && s.sessions[id].revokedAt.Some?
    ensures var s' := Exec(Protocol, Init(), before + later);
            && id in s'.sessions && s'.sessions[id].revokedAt.Some?
            && (FindReturns(s'.sessions, hash, now, Some(session)) ==> session.id != id)
  {
    Append(Protocol, Init(), before, later);
    InitInv();
    RunKeeps(Init(), before);
    RunKeeps(Exec(Protocol, Init(), before), later);
  }

  // A refresh finds its session, at a time at which the token it presents is good there.
  ghost predicate GoodFind(s: State, t: Step, token: string) {
    && t.RefreshFind? && t.token == token && Live(t.session, HmacOf(token), t.now)
    && exists id | id in s.sessions :: s.sessions[id] == t.session
  }

  ghost predicate FoundGood(steps: seq<Step>, token: string) {
    Happened(Protocol, Init(), steps, (s, t) => GoodFind(s, t, token))
  }

  // Every token that a refresh holds or has been granted for was found good in the run.
  ghost predicate AllGood(s: State, steps: seq<Step>) {
    && (forall c | c in s.calls && Holding(s.calls[c]) :: FoundGood(steps, s.calls[c].token))
    && (forall k | 0 <= k < |s.granted| :: FoundGood(steps, s.granted[k].0))
  }

  predicate Holding(call: Call) {
    call.RefreshFound? || call.RefreshIssued?
  }

  lemma FoundThen(steps: seq<Step>, token: string)
    requires steps != []
    ensures var front, last := steps[..|steps| - 1], steps[|steps| - 1];
            FoundGood(front, token) || GoodFind(Exec(Protocol, Init(), front), last, token) ==> FoundGood(steps, token)
  {
    hide GoodFind;
    HappenedThen(Protocol, Init(), steps, (s, t) => GoodFind(s, t, token));
  }

  lemma FindIsGood(s: State, t: Step)
    requires Enabled(s, t) && t.RefreshFind?
    ensures GoodFind(s, t, t.token)
  {
    FindsLive(s.sessions, HmacOf(t.token), t.now, t.session);
    hide FindReturns;
  }

  // What refreshes hold and were granted after a step.
  lemma HoldersAfter(s: State, t: Step)
    requires Enabled(s, t)
    ensures forall c | c in After(s, t).calls && Holding(After(s, t).calls[c]) ::
              || (c in s.calls && Holding(s.calls[c]) && s.calls[c].token == After(s, t).calls[c].token)
              || (t.RefreshFind? && t.token == After(s, t).calls[c].token)
  {
    hide FindReturns;
    hide AfterRotate;
    hide AfterRevoke;
  }

  lemma GrantedAfter(s: State, t: Step)
    requires Enabled(s, t)
    ensures After(s, t).granted ==
              if t.RefreshRotate? then s.granted + [(s.calls[t.c].token, s.calls[t.c].minted)] else s.granted
    ensures t.RefreshRotate? ==> t.c in s.calls && Holding(s.calls[t.c])
  {
    hide FindReturns;
    hide AfterRotate;
    hide AfterRevoke;
  }

  lemma GoodStep(s: State, t: Step, steps: seq<Step>)
    requires steps != [] && steps[|steps| - 1] == t && s == Exec(Protocol, Init(), steps[..|steps| - 1])
    requires Enabled(s, t) && AllGood(s, steps[..|steps| - 1])
    ensures AllGood(After(s, t), steps)
  {
    HoldersAfter(s, t);
    GrantedAfter(s, t);
    if t.RefreshFind? {
      FindIsGood(s, t);
      FoundThen(steps, t.token);
    }
    var s' := After(s, t);
    hide Enabled;
    hide After;
    hide FoundGood;
    hide GoodFind;
    hide Holding;
    hide Exec;
    forall c | c in s'.calls && Holding(s'.calls[c]) ensures FoundGood(steps, s'.calls[c].token) {
      FoundThen(steps, s'.calls[c].token);
    }
    forall k | 0 <= k < |s'.granted| ensures FoundGood(steps, s'.granted[k].0) {
      FoundThen(steps, s'.granted[k].0);
    }
  }

  lemma {:induction false} RunGood(steps: seq<Step>)
    requires Legal(Protocol, Init(), steps)
    ensures AllGood(Exec(Protocol, Init(), steps), steps)
  {
    if steps != [] {
      var front, t := steps[..|steps| - 1], steps[|steps| - 1];
      hide AllGood;
      hide Enabled;
      hide After;
      Unsnoc(Protocol, Init(), steps);
      RunGood(front);
      GoodStep(Exec(Protocol, Init(), front), t, steps);
    }
  }

  // Over every interleaving: no refresh is granted unless it had found its session stored
  // with the presented token, not revoked, and not expired by its own clock reading.
  lemma GrantedOnlyWhileGood(steps: seq<Step>, k: nat)
    requires Legal(Protocol, Init(), steps) && k < |Exec(Protocol, Init(), steps).granted|
    ensures exists i | 0 <= i < |steps| ::
              GoodFind(Exec(Protocol, Init(), steps[..i]), steps[i], Exec(Protocol, Init(), steps).granted[k].0)
  {
    RunGood(steps);
    hide GoodFind;
    hide Exec;
    hide Legal;
  }

  lemma ProtocolStep(start: State, steps: seq<Step>, s: State, t: Step)
    requires Legal(Protocol, start, steps) && Exec(Protocol, start, steps) == s && Enabled(s, t)
    ensures Legal(Protocol, start, steps + [t]) && Exec(Protocol, start, steps + [t]) == After(s, t)
  {
    hide Enabled;
    hide After;
    Extend(Protocol, start, steps, t);
  }

  // No running refresh presented this token.
  ghost predicate Unclaimed(s: State, token: string) {
    forall c | c in s.calls && Holding(s.calls[c]) :: s.calls[c].token != token
  }

  // Runs in which a refresh looks for its session only while no other one holds its token.
  // Refreshes with different tokens overlap freely, of the same session or others.
  ghost const Exclusive: Machine<State, Step> :=
    Machine((s, t) => Enabled(s, t) && (t.RefreshFind? ==> Unclaimed(s, t.token)), (s, t) => After(s, t))

  predicate OnceEach(granted: seq<(string, string)>) {
    forall k, l | 0 <= k < l < |granted| :: granted[k].0 != granted[l].0
  }

  // No two running refreshes hold the same token, and none holds one that was granted.
  ghost predicate HoldersApart(s: State) {
    && (forall c, d | c in s.calls && d in s.calls && c != d && Holding(s.calls[c]) && Holding(s.calls[d]) ::
          s.calls[c].token != s.calls[d].token)
    && (forall c, k | c in s.calls && Holding(s.calls[c]) && 0 <= k < |s.granted| ::
          s.granted[k].0 != s.calls[c].token)
  }

  ghost predicate SingleUse(s: State) {
    OnceEach(s.granted) && HoldersApart(s)
  }

  lemma SingleUseRotate(s: State, c: nat, now: Time)
    requires SingleUse(s) && Enabled(s, RefreshRotate(c, now))
    ensures SingleUse(After(s, RefreshRotate(c, now)))
  {
    hide AfterRotate;
  }

  lemma SingleUseOther(s: State, t: Step)
    requires SingleUse(s) && Enabled(s, t) && !t.RefreshFind? && !t.RefreshRotate?
    ensures SingleUse(After(s, t))
  {
    hide FindReturns;
    hide AfterRevoke;
    hide OnceEach;
  }

  lemma SingleUseFind(s: State, c: nat, token: string, now: Time, session: Session)
    requires Inv(s) && SingleUse(s) && Enabled(s, RefreshFind(c, token, now, session)) && Unclaimed(s, token)
    ensures SingleUse(After(s, RefreshFind(c, token, now, session)))
  {
    FoundIsStored(s, HmacOf(token), now, session);
    assert HmacOf(token) !in s.retired;
    assert forall k | 0 <= k < |s.granted| :: s.granted[k].0 != token;
    hide Inv;
    hide FindReturns;
    hide OnceEach;
  }

  lemma SingleUseStep(s: State, t: Step)
    requires SingleUse(s) && Enabled(s, t) && !t.RefreshFind?
    ensures SingleUse(After(s, t))
  {
    hide *;
    match t
    case RefreshRotate(c, now) => SingleUseRotate(s, c, now);
    case _ => SingleUseOther(s, t);
  }

  lemma ExclusiveStep(s: State, t: Step)
    requires Inv(s) && SingleUse(s) && Exclusive.enabled(s, t)
    ensures Inv(After(s, t)) && SingleUse(After(s, t))
  {
    assert Enabled(s, t) && (t.RefreshFind? ==> Unclaimed(s, t.token));
    assert Kept(s, After(s, t)) by {
      StepKeeps(s, t);
    }
    hide Inv;
    hide Enabled;
    hide After;
    hide SingleUse;
    hide Unclaimed;
    if t.RefreshFind? {
      SingleUseFind(s, t.c, t.token, t.now, t.session);
    } else {
      SingleUseStep(s, t);
    }
  }

  // While running refreshes hold different tokens, no refresh token is granted twice.
  lemma ExclusiveRefreshesSingleUse(steps: seq<Step>)
    requires Legal(Exclusive, Init(), steps)
    ensures OnceEach(Exec(Exclusive, Init(), steps).granted)
  {
    InitInv();
    hide OnceEach;
    forall a, t | Inv(a) && SingleUse(a) && Exclusive.enabled(a, t)
      ensures Inv(Exclusive.next(a, t)) && SingleUse(Exclusive.next(a, t))
    {
      ExclusiveStep(a, t);
    }
    assert SingleUse(Init()) by {
      EmptyGrants();
    }
    Invariant(Exclusive, a => Inv(a) && SingleUse(a), Init(), steps);
  }

  lemma EmptyGrants()
    ensures OnceEach(Init().granted) && Init().calls == map[]
  {
  }

  predicate NoFinds(steps: seq<Step>) {
    forall i | 0 <= i < |steps| :: !steps[i].RefreshFind?
  }

  lemma {:induction false} NoFindsKeep(s: State, later: seq<Step>)
    requires SingleUse(s) && Legal(Protocol, s, later) && NoFinds(later)
    ensures SingleUse(Exec(Protocol, s, later))
    decreases later
  {
    hide SingleUse;
    hide Enabled;
    hide After;
    if later != [] {
      SingleUseStep(s, later[0]);
      NoFindsKeep(After(s, later[0]), later[1..]);
    }
  }

  // There is always a token not drawn yet.
  lemma Undrawn(tokens: set<string>) returns (token: string)
    ensures token !in tokens
  {
    var n: nat := 0;
    var left := tokens;
    while left != {}
      invariant left <= tokens
      invariant forall x | x in tokens :: x in left || |x| < n
    {
      var x :| x in left;
      left := left - {x};
      n := if |x| < n then n else |x| + 1;
    }
    token := seq(n, _ => 'x');
    assert |token| == n;
  }

  lemma IssueEffect(s: State, c: nat, minted: string, expiresAt: Time)
    requires c in s.calls && s.calls[c].RefreshFound? && minted !in s.tokens
    ensures Enabled(s, RefreshIssue(c, minted, expiresAt))
    ensures After(s, RefreshIssue(c, minted, expiresAt)) ==
            s.(calls := s.calls[c := RefreshIssued(s.calls[c].token, s.calls[c].id, minted, expiresAt)],
               tokens := s.tokens + {minted})
  {
  }

  lemma RotateEffect(s: State, c: nat, now: Time)
    requires c in s.calls && s.calls[c].RefreshIssued?
    ensures Enabled(s, RefreshRotate(c, now))
    ensures var s' := After(s, RefreshRotate(c, now));
            && s'.granted == s.granted + [(s.calls[c].token, s.calls[c].minted)]
            && s'.calls == s.calls - {c}
  {
    hide AfterRotate;
  }

  // A running refresh can always be brought to its end, and is then granted.
  lemma FinishRefresh(s: State, c: nat) returns (more: seq<Step>, minted: string)
    requires c in s.calls && Holding(s.calls[c])
    ensures Legal(Protocol, s, more) && NoFinds(more)
    ensures var s' := Exec(Protocol, s, more);
            s'.granted == s.granted + [(s.calls[c].token, minted)] && s'.calls == s.calls - {c}
  {
    var call := s.calls[c];
    NoSteps(Protocol, s);
    hide Legal;
    hide Exec;
    hide Enabled;
    hide After;
    if call.RefreshIssued? {
      RotateEffect(s, c, ZERO_TIME);
      ProtocolStep(s, [], s, RefreshRotate(c, ZERO_TIME));
      more, minted := [] + [RefreshRotate(c, ZERO_TIME)], call.minted;
    } else {
      minted := Undrawn(s.tokens);
      IssueEffect(s, c, minted, ZERO_TIME);
      var issue := RefreshIssue(c, minted, ZERO_TIME);
      ProtocolStep(s, [], s, issue);
      RotateEffect(After(s, issue), c, ZERO_TIME);
      ProtocolStep(s, [] + [issue], After(s, issue), RefreshRotate(c, ZERO_TIME));
      more := [] + [issue] + [RefreshRotate(c, ZERO_TIME)];
      assert After(s, issue).calls - {c} == s.calls - {c};
    }
  }

  lemma GrantedAgain(granted: seq<(string, string)>, k: nat, token: string, minted: string)
    requires k < |granted| && granted[k].0 == token
    ensures !OnceEach(granted + [(token, minted)])
  {
    var more := granted + [(token, minted)];
    assert more[k].0 == more[|granted|].0;
  }

  // Two running refreshes of one token, or one whose token was granted already, can be
  // brought to grant that token twice.
  lemma SharedTokenGrantedTwice(s: State) returns (later: seq<Step>)
    requires !HoldersApart(s)
    ensures Legal(Protocol, s, later) && NoFinds(later) && !OnceEach(Exec(Protocol, s, later).granted)
  {
    hide Legal;
    hide Exec;
    hide OnceEach;
    if c, k :| c in s.calls && Holding(s.calls[c]) && 0 <= k < |s.granted| && s.granted[k].0 == s.calls[c].token {
      var minted;
      later, minted := FinishRefresh(s, c);
      GrantedAgain(s.granted, k, s.calls[c].token, minted);
    } else {
      var c, d :| c in s.calls && d in s.calls && c != d && Holding(s.calls[c]) && Holding(s.calls[d])
                  && s.calls[c].token == s.calls[d].token;
      var first, a := FinishRefresh(s, c);
      var s1 := Exec(Protocol, s, first);
      var second, b := FinishRefresh(s1, d);
      Append(Protocol, s, first, second);
      later := first + second;
      assert s1.granted[|s.granted|].0 == s.calls[d].token;
      GrantedAgain(s1.granted, |s.granted|, s.calls[d].token, b);
    }
  }

  // Exactly from which reachable states a token can come to be granted twice by calls that
  // already run: those in which two refreshes hold the same token, or one holds a token
  // that was granted.
  lemma DoubleGrantIff(before: seq<Step>)
    requires Legal(Protocol, Init(), before) && OnceEach(Exec(Protocol, Init(), before).granted)
    ensures var s := Exec(Protocol, Init(), before);
            (exists later :: Legal(Protocol, s, later) && NoFinds(later) && !OnceEach(Exec(Protocol, s, later).granted))
            <==> !HoldersApart(s)
  {
    var s := Exec(Protocol, Init(), before);
    hide Legal;
    hide Exec;
    hide OnceEach;
    hide NoFinds;
    hide HoldersApart;
    if HoldersApart(s) {
      forall later | Legal(Protocol, s, later) && NoFinds(later) ensures OnceEach(Exec(Protocol, s, later).granted) {
        NoFindsKeep(s, later);
      }
    } else {
      var later := SharedTokenGrantedTwice(s);
    }
  }

  // Two refreshes that both find their session before either rotates it.
  function RacingRefreshes(c: nat, d: nat, token: string, session: Session, a: string, b: string,
                           now: Time, expiresAt: Time): seq<Step> {
    [] + [RefreshFind(c, token, now, session)] + [RefreshFind(d, token, now, session)]
    + [RefreshIssue(c, a, expiresAt)] + [RefreshIssue(d, b, expiresAt)]
    + [RefreshRotate(c, now)] + [RefreshRotate(d, now)]
  }

  // With overlap the promise fails: from every state where a token finds its session, two
  // racing refreshes both succeed with it. The later rotation retires the token that the
  // earlier one just handed out, so only one of the two new tokens works.
  lemma RacingRefreshesBothGranted(s: State, c: nat, d: nat, token: string, session: Session, a: string, b: string,
                                   now: Time, expiresAt: Time)
    requires Inv(s) && FindReturns(s.sessions, HmacOf(token), now, Some(session))
    requires c != d && c !in s.calls && d !in s.calls && a != b && a !in s.tokens && b !in s.tokens
    ensures var steps := RacingRefreshes(c, d, token, session, a, b, now, expiresAt);
            var s' := Exec(Protocol, s, steps);
            && Legal(Protocol, s, steps)
            && s'.granted == s.granted + [(token, a)] + [(token, b)]
            && session.id in s'.sessions && s'.sessions[session.id].refreshTokenHash == HmacOf(b)
            && HmacOf(a) in s'.retired && HmacOf(token) in s'.retired
  {
    FoundIsStored(s, HmacOf(token), now, session);
    NoSteps(Protocol, s);
    var t0, t1 := RefreshFind(c, token, now, session), RefreshFind(d, token, now, session);
    var t2, t3, t4, t5 := RefreshIssue(c, a, expiresAt), RefreshIssue(d, b, expiresAt),
      RefreshRotate(c, now), RefreshRotate(d, now);
    var s2 := s.(calls := s.calls[c := RefreshFound(token, session.id)][d := RefreshFound(token, session.id)]);
    RaceFinds(s, c, d, token, session, now);
    var s4 := s2.(calls := s.calls[c := RefreshIssued(token, session.id, a, expiresAt)]
                                  [d := RefreshIssued(token, session.id, b, expiresAt)],
                  tokens := s.tokens + {a} + {b});
    RaceIssues(s2, s4, s.calls, c, d, token, session.id, a, b, expiresAt);
    RaceRotates(s4, c, d, token, session.id, a, b, expiresAt, now);
    hide *;
    ProtocolStep(s, [], s, t0);
    ProtocolStep(s, [] + [t0], After(s, t0), t1);
    ProtocolStep(s, [] + [t0] + [t1], s2, t2);
    ProtocolStep(s, [] + [t0] + [t1] + [t2], After(s2, t2), t3);
    ProtocolStep(s, [] + [t0] + [t1] + [t2] + [t3], s4, t4);
    ProtocolStep(s, [] + [t0] + [t1] + [t2] + [t3] + [t4], After(s4, t4), t5);
    RacingIs(c, d, token, session, a, b, now, expiresAt);
  }

  lemma RacingIs(c: nat, d: nat, token: string, session: Session, a: string, b: string, now: Time, expiresAt: Time)
    ensures RacingRefreshes(c, d, token, session, a, b, now, expiresAt) ==
            [] + [RefreshFind(c, token, now, session)] + [RefreshFind(d, token, now, session)]
            + [RefreshIssue(c, a, expiresAt)] + [RefreshIssue(d, b, expiresAt)]
            + [RefreshRotate(c, now)] + [RefreshRotate(d, now)]
  {
  }

  lemma RaceFinds(s: State, c: nat, d: nat, token: string, session: Session, now: Time)
    requires FindReturns(s.sessions, HmacOf(token), now, Some(session)) && c != d && c !in s.calls && d !in s.calls
    ensures var t0, t1 := RefreshFind(c, token, now, session), RefreshFind(d, token, now, session);
            && Enabled(s, t0) && Enabled(After(s, t0), t1)
            && After(After(s, t0), t1) ==
                 s.(calls := s.calls[c := RefreshFound(token, session.id)][d := RefreshFound(token, session.id)])
  {
    hide FindReturns;
  }

  lemma RaceIssues(s2: State, s4: State, calls: map<nat, Call>, c: nat, d: nat, token: string, id: string,
                   a: string, b: string, expiresAt: Time)
    requires c != d && a != b && a !in s2.tokens && b !in s2.tokens
    requires s2.calls == calls[c := RefreshFound(token, id)][d := RefreshFound(token, id)]
    requires s4 == s2.(calls := calls[c := RefreshIssued(token, id, a, expiresAt)]
                                  [d := RefreshIssued(token, id, b, expiresAt)],
                       tokens := s2.tokens + {a} + {b})
    ensures var t2, t3 := RefreshIssue(c, a, expiresAt), RefreshIssue(d, b, expiresAt);
            Enabled(s2, t2) && Enabled(After(s2, t2), t3) && After(After(s2, t2), t3) == s4
  {
    var t2, t3 := RefreshIssue(c, a, expiresAt), RefreshIssue(d, b, expiresAt);
    assert After(After(s2, t2), t3).calls == s4.calls;
  }

  lemma RaceRotates(s: State, c: nat, d: nat, token: string, id: string, a: string, b: string,
                    expiresAt: Time, now: Time)
    requires c != d && c in s.calls && d in s.calls && id in s.sessions
    requires s.sessions[id].refreshTokenHash == HmacOf(token)
    requires s.calls[c] == RefreshIssued(token, id, a, expiresAt)
             && s.calls[d] == RefreshIssued(token, id, b, expiresAt)
    ensures var t4, t5 := RefreshRotate(c, now), RefreshRotate(d, now);
            var s' := After(After(s, t4), t5);
            && Enabled(s, t4) && Enabled(After(s, t4), t5)
            && s'.granted == s.granted + [(token, a)] + [(token, b)]
            && id in s'.sessions && s'.sessions[id].refreshTokenHash == HmacOf(b)
            && HmacOf(a) in s'.retired && HmacOf(token) in s'.retired
  {
  }
}
