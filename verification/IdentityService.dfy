// The identity service and its in-memory session store. Alone, each call is a legal run of
// the session protocol.
module IdentityService {
  import opened Results
  import opened Runs
  import opened Clock
  import opened Maps
  import opened Text
  import opened Sessions
  import opened SessionRuns

  datatype StoreError = NotFound

  datatype Error = TokenRequired | InvalidToken | TokenFailed | SessionGone

  // What the access token asserts, beside the refresh token.
  datatype AccessClaims = AccessClaims(
    userId: string, deviceId: string, session: string, platform: string, scopes: seq<string>)

  datatype TokenPair = TokenPair(claims: AccessClaims, refreshToken: string, refreshExpiresAt: Time)

  // A freshly drawn refresh token and its expiry.
  datatype Draw = Draw(token: string, expiresAt: Time)

  datatype LoginInput = LoginInput(
    userId: string, deviceId: string, platform: string, scopes: seq<string>, userAgent: string, ipAddress: string)

  datatype RefreshInput = RefreshInput(refreshToken: string, deviceId: string, platform: string)

  // The given text, trimmed, or what stands in for a blank one.
  ghost predicate Given(text: string, otherwise: string, taken: string) {
    taken == if TrimSpace(text) != "" then TrimSpace(text) else otherwise
  }

  class MemoryStore {
    var users: set<string>
    var sessions: SessionMap

    constructor ()
      ensures users == {} && sessions == map[]
    {
      users, sessions := {}, map[];
    }

    method UpsertUser(userId: string)
      modifies this`users
      ensures users == old(users) + {userId}
    {
      users := users + {userId};
    }

    method CreateSession(session: Session)
      modifies this`sessions
      ensures sessions == old(sessions)[session.id := session]
    {
      sessions := sessions[session.id := session];
    }

    method FindActiveSessionByRefreshHash(hash: TokenHash, now: Time) returns (found: Result<Session, StoreError>)
      ensures FindReturns(sessions, hash, now, if found.Ok? then Some(found.value) else None)
      ensures found.Ok? ==> Live(found.value, hash, now) && exists id | id in sessions :: sessions[id] == found.value
      ensures found.Err? ==>
                || (forall id | id in sessions :: sessions[id].refreshTokenHash != hash)
                || (exists id | id in sessions ::
                      sessions[id].refreshTokenHash == hash && !Live(sessions[id], hash, now))
    {
      var left := sessions.Keys;
      while left != {}
        invariant left <= sessions.Keys
        invariant forall id | id in sessions.Keys - left :: sessions[id].refreshTokenHash != hash
      {
        var id :| id in left;
        var session := sessions[id];
        left := left - {id};
        if session.refreshTokenHash != hash {
          continue;
        }
        if session.revokedAt.Some? || session.expiresAt <= now {
          return Err(NotFound);
        }
        return Ok(session);
      }
      found := Err(NotFound);
    }

    method RotateSession(id: string, hash: TokenHash, expiresAt: Time, now: Time) returns (done: Result<(), StoreError>)
      modifies this`sessions
      ensures sessions == AfterRotate(old(sessions), id, hash, expiresAt, now)
      ensures done.Ok? <==> id in old(sessions)
    {
      if id !in sessions {
        return Err(NotFound);
      }
      var session := sessions[id];
      session := session.(refreshTokenHash := hash);
      session := session.(expiresAt := expiresAt);
      session := session.(rotatedAt := Some(now));
      sessions := sessions[id := session];
      done := Ok(());
    }

    method RevokeSession(id: string, now: Time) returns (done: Result<(), StoreError>)
      modifies this`sessions
      ensures sessions == AfterRevoke(old(sessions), id, now)
      ensures done.Ok? <==> id in old(sessions)
    {
      if id !in sessions {
        return Err(NotFound);
      }
      sessions := sessions[id := sessions[id].(revokedAt := Some(now))];
      done := Ok(());
    }
  }

  // The token finds the session at every time before `until`, and from then on it finds none.
  ghost predicate GoodUntil(sessions: SessionMap, token: string, id: string, until: Time) {
    && id in sessions
    && (forall t | t < until :: FindReturns(sessions, HmacOf(token), t, Some(sessions[id])))
    && (forall t, s | t >= until :: !FindReturns(sessions, HmacOf(token), t, Some(s)))
  }

  // Nobody finds a session with this hash from the given time on.
  ghost predicate NeverFoundFrom(sessions: SessionMap, hash: TokenHash, from: Time) {
    forall session, t | t >= from :: !FindReturns(sessions, hash, t, Some(session))
  }

  class Service {
    const store: MemoryStore

    constructor (store: MemoryStore)
      ensures this.store == store
    {
      this.store := store;
    }

    ghost predicate Shows(m: State)
      reads store
    {
      m.sessions == store.sessions
    }

    // A login stores one new session that its refresh token finds until it expires.
    method IssueDevLogin(input: LoginInput, freshUser: string, sessionId: string, draw: Option<Draw>, now: Time,
                         ghost m: State, ghost c: nat)
      returns (pair: Result<TokenPair, Error>, ghost steps: seq<Step>)
      requires Shows(m) && Inv(m) && c !in m.calls
      requires sessionId !in m.ids && (draw.Some? ==> draw.value.token !in m.tokens)
      modifies store
      ensures Legal(Protocol, m, steps) && Shows(Exec(Protocol, m, steps)) && Exec(Protocol, m, steps).calls == m.calls
      ensures pair.Ok? <==> draw.Some?
      ensures pair.Err? ==> pair.error == TokenFailed && store.sessions == m.sessions
      ensures exists user :: Given(input.userId, freshUser, user) && store.users == old(store.users) + {user}
      ensures pair.Ok? ==>
                var p := pair.value;
                && p.refreshToken == draw.value.token && p.claims.session == sessionId
                && Given(input.userId, freshUser, p.claims.userId) && Given(input.platform, "Web", p.claims.platform)
                && sessionId !in m.sessions && sessionId in store.sessions
                && store.sessions == m.sessions[sessionId := store.sessions[sessionId]]
                && store.sessions[sessionId] ==
                     Session(sessionId, p.claims.userId, HmacOf(p.refreshToken), TrimSpace(input.deviceId),
                             TrimSpace(input.userAgent), TrimSpace(input.ipAddress), p.refreshExpiresAt,
                             None, None, now)
                && draw == Some(Draw(p.refreshToken, p.refreshExpiresAt))
                && p.claims.deviceId == TrimSpace(input.deviceId) && p.claims.scopes == input.scopes
                && GoodUntil(store.sessions, p.refreshToken, sessionId, p.refreshExpiresAt)
    {
      NoSteps(Protocol, m);
      hide Legal;
      hide Exec;
      hide TrimSpace;
      steps := [];
      var userId := TrimOr(input.userId, freshUser);
      assert Given(input.userId, freshUser, userId);
      store.UpsertUser(userId);
      var platform := TrimOr(input.platform, "Web");
      if draw.None? {
        return Err(TokenFailed), [];
      }
      var device := TrimSpace(input.deviceId);
      var session := Session(
        sessionId, userId, HmacOf(draw.value.token), device, TrimSpace(input.userAgent), TrimSpace(input.ipAddress),
        draw.value.expiresAt, None, None, now);
      UnusedId(m, sessionId);
      LoginRun(m, c, session);
      store.CreateSession(session);
      steps := [] + [LoginIssue(c, session)] + [LoginStore(c)];
      assert sessionId in store.sessions && store.sessions[sessionId] == session;
      NewGoodUntil(m, sessionId, session, draw.value);
      pair := Ok(TokenPair(AccessClaims(userId, device, sessionId, platform, input.scopes),
                           draw.value.token, draw.value.expiresAt));
    }

    // A refresh succeeds exactly when a usable session has the presented token installed
    // and a new token could be drawn. It installs the new token and uses up the old one.
    method Refresh(input: RefreshInput, draw: Option<Draw>, now: Time, ghost m: State, ghost c: nat)
      returns (pair: Result<TokenPair, Error>, ghost steps: seq<Step>)
      requires Shows(m) && Inv(m) && c !in m.calls && (draw.Some? ==> draw.value.token !in m.tokens)
      modifies store`sessions
      ensures Legal(Protocol, m, steps) && Shows(Exec(Protocol, m, steps)) && Exec(Protocol, m, steps).calls == m.calls
      ensures var token := TrimSpace(input.refreshToken);
              var good := exists id | id in m.sessions :: Live(m.sessions[id], HmacOf(token), now);
              && (pair == Err(TokenRequired) <==> token == "")
              && (pair == Err(InvalidToken) <==> token != "" && !good)
              && (pair == Err(TokenFailed) <==> token != "" && good && draw.None?)
              && (pair.Ok? <==> token != "" && good && draw.Some?)
      ensures pair.Err? ==> store.sessions == m.sessions && Exec(Protocol, m, steps).granted == m.granted
      ensures pair.Ok? ==>
                var token, p := TrimSpace(input.refreshToken), pair.value;
                && draw == Some(Draw(p.refreshToken, p.refreshExpiresAt))
                && Exec(Protocol, m, steps).granted == m.granted + [(token, p.refreshToken)]
                && p.claims.session in m.sessions
                && var session := m.sessions[p.claims.session];
                   && Live(session, HmacOf(token), now)
                   && p.claims.userId == session.userId && Given(input.deviceId, session.deviceId, p.claims.deviceId)
                   && Given(input.platform, "Web", p.claims.platform)
                   && store.sessions == m.sessions[p.claims.session := session.(
                        refreshTokenHash := HmacOf(p.refreshToken), expiresAt := p.refreshExpiresAt,
                        rotatedAt := Some(now))]
                   && GoodUntil(store.sessions, p.refreshToken, p.claims.session, p.refreshExpiresAt)
    {
      NoSteps(Protocol, m);
      hide Legal;
      hide Exec;
      hide Inv;
      hide FindReturns;
      hide Live;
      hide GoodUntil;
      hide TrimSpace;
      steps := [];
      var token := TrimSpace(input.refreshToken);
      if token == "" {
        return Err(TokenRequired), [];
      }
      var found := store.FindActiveSessionByRefreshHash(HmacOf(token), now);
      FindsNoneIff(m.sessions, HmacOf(token), now);
      if found.Err? {
        NothingFound(m, HmacOf(token), now);
        return Err(InvalidToken), [];
      }
      var session := found.value;
      SessionFound(m, HmacOf(token), now, session);
      var platform := TrimOr(input.platform, "Web");
      var device := TrimOr(input.deviceId, session.deviceId);
      if draw.None? {
        AbandonedRun(m, c, token, now, session);
        steps := [] + [RefreshFind(c, token, now, session)] + [Abandon(c)];
        return Err(TokenFailed), steps;
      }
      RefreshRun(m, c, token, now, session, draw.value);
      NewGoodUntil(m, session.id, Rotated(session, HmacOf(draw.value.token), draw.value.expiresAt, now), draw.value);
      var rotated := store.RotateSession(session.id, HmacOf(draw.value.token), draw.value.expiresAt, now);
      steps := [] + [RefreshFind(c, token, now, session)]
               + [RefreshIssue(c, draw.value.token, draw.value.expiresAt)] + [RefreshRotate(c, now)];
      if rotated.Err? {
        return Err(SessionGone), steps;
      }
      pair := Ok(TokenPair(AccessClaims(session.userId, device, session.id, platform, []),
                           draw.value.token, draw.value.expiresAt));
    }

    // After a logout nobody finds a session with the token from then on; a token that finds
    // none is not an error.
    method Logout(refreshToken: string, now: Time, ghost m: State, ghost c: nat)
      returns (done: Result<(), Error>, ghost steps: seq<Step>)
      requires Shows(m) && Inv(m) && c !in m.calls
      modifies store`sessions
      ensures Legal(Protocol, m, steps) && Shows(Exec(Protocol, m, steps)) && Exec(Protocol, m, steps).calls == m.calls
      ensures done == if TrimSpace(refreshToken) == "" then Err(TokenRequired) else Ok(())
      ensures done.Ok? ==> NeverFoundFrom(store.sessions, HmacOf(TrimSpace(refreshToken)), now)
      ensures done.Ok? ==>
                var hash := HmacOf(TrimSpace(refreshToken));
                if exists id | id in m.sessions :: Live(m.sessions[id], hash, now) then
                  exists id | id in m.sessions && Live(m.sessions[id], hash, now) ::
                    store.sessions == m.sessions[id := m.sessions[id].(revokedAt := Some(now))]
                else store.sessions == m.sessions
      ensures done.Err? ==> store.sessions == m.sessions
    {
      NoSteps(Protocol, m);
      hide Legal;
      hide Exec;
      hide Inv;
      hide FindReturns;
      hide Live;
      hide TrimSpace;
      hide NeverFoundFrom;
      steps := [];
      var token := TrimSpace(refreshToken);
      if token == "" {
        return Err(TokenRequired), [];
      }
      FindsNoneIff(m.sessions, HmacOf(token), now);
      var found := store.FindActiveSessionByRefreshHash(HmacOf(token), now);
      if found.Err? {
        NothingFound(m, HmacOf(token), now);
        return Ok(()), [];
      }
      var session := found.value;
      SessionFound(m, HmacOf(token), now, session);
      assert Live(m.sessions[session.id], HmacOf(token), now);
      LogoutRun(m, c, token, now, session);
      RevokedFindsNothing(m, session.id, HmacOf(token), now);
      var revoked := store.RevokeSession(session.id, now);
      steps := [] + [LogoutFind(c, token, now, session)] + [LogoutRevoke(c, now)];
      done := if revoked.Ok? then Ok(()) else Err(SessionGone);
    }
  }

  // A token just drawn is good exactly until the expiry of the session it is put in.
  lemma NewGoodUntil(m: State, id: string, session: Session, draw: Draw)
    requires Inv(m) && draw.token !in m.tokens
    requires session.refreshTokenHash == HmacOf(draw.token) && session.revokedAt.None?
    requires session.expiresAt == draw.expiresAt
    ensures GoodUntil(m.sessions[id := session], draw.token, id, draw.expiresAt)
  {
    hide HashesApart;
    hide IdsDistinct;
    hide AllFound;
    hide GrantsRetired;
    var after := m.sessions[id := session];
    assert forall i | i in after && i != id :: after[i].refreshTokenHash != HmacOf(draw.token);
    assert id in after && after[id] == session;
  }

  lemma UnusedId(m: State, id: string)
    requires Inv(m) && id !in m.ids
    ensures id !in m.sessions
  {
    hide HashesApart;
    hide HashesDrawn;
    hide AllFound;
    hide GrantsRetired;
  }

  // With distinct hashes a find that comes back empty means no usable session, now or later.
  lemma NothingFound(m: State, hash: TokenHash, now: Time)
    requires Inv(m) && FindReturns(m.sessions, hash, now, None)
    ensures NeverFoundFrom(m.sessions, hash, now)
    ensures forall s :: !FindReturns(m.sessions, hash, now, Some(s))
  {
    hide HashesDrawn;
    hide IdsDistinct;
    hide AllFound;
    hide GrantsRetired;
    assert forall id | id in m.sessions && m.sessions[id].refreshTokenHash == hash :: !Usable(m.sessions[id], now);
  }

  lemma SessionFound(m: State, hash: TokenHash, now: Time, session: Session)
    requires Inv(m) && FindReturns(m.sessions, hash, now, Some(session))
    ensures session.id in m.sessions && m.sessions[session.id] == session && session.refreshTokenHash == hash
  {
    hide HashesApart;
    hide HashesDrawn;
    hide AllFound;
    hide GrantsRetired;
    var id :| id in m.sessions && m.sessions[id] == session;
  }

  lemma RevokedFindsNothing(m: State, id: string, hash: TokenHash, now: Time)
    requires Inv(m) && id in m.sessions && m.sessions[id].refreshTokenHash == hash
    ensures NeverFoundFrom(AfterRevoke(m.sessions, id, now), hash, now)
  {
    hide HashesDrawn;
    hide AllFound;
    hide GrantsRetired;
  }

  lemma LoginRun(m: State, c: nat, session: Session)
    requires Enabled(m, LoginIssue(c, session))
    ensures var steps := [] + [LoginIssue(c, session)] + [LoginStore(c)];
            && Legal(Protocol, m, steps)
            && Exec(Protocol, m, steps).sessions == m.sessions[session.id := session]
            && Exec(Protocol, m, steps).calls == m.calls
  {
    hide Legal;
    hide Exec;
    NoSteps(Protocol, m);
    Replaced(m.calls, c, LoginIssued(session), LoginIssued(session));
    ProtocolStep(m, [], m, LoginIssue(c, session));
    ProtocolStep(m, [] + [LoginIssue(c, session)], After(m, LoginIssue(c, session)), LoginStore(c));
  }

  lemma FoundRun(m: State, c: nat, token: string, now: Time, session: Session)
    requires c !in m.calls && FindReturns(m.sessions, HmacOf(token), now, Some(session))
    ensures var t := RefreshFind(c, token, now, session);
            && Legal(Protocol, m, [] + [t])
            && Exec(Protocol, m, [] + [t]) == m.(calls := m.calls[c := RefreshFound(token, session.id)])
  {
    hide Legal;
    hide Exec;
    hide FindReturns;
    NoSteps(Protocol, m);
    ProtocolStep(m, [], m, RefreshFind(c, token, now, session));
  }

  lemma AbandonedRun(m: State, c: nat, token: string, now: Time, session: Session)
    requires c !in m.calls && FindReturns(m.sessions, HmacOf(token), now, Some(session))
    ensures var steps := [] + [RefreshFind(c, token, now, session)] + [Abandon(c)];
            Legal(Protocol, m, steps) && Exec(Protocol, m, steps) == m
  {
    hide Legal;
    hide Exec;
    hide FindReturns;
    FoundRun(m, c, token, now, session);
    Replaced(m.calls, c, RefreshFound(token, session.id), RefreshFound(token, session.id));
    var s := m.(calls := m.calls[c := RefreshFound(token, session.id)]);
    ProtocolStep(m, [] + [RefreshFind(c, token, now, session)], s, Abandon(c));
  }

  lemma RefreshRun(m: State, c: nat, token: string, now: Time, session: Session, draw: Draw)
    requires c !in m.calls && FindReturns(m.sessions, HmacOf(token), now, Some(session)) && draw.token !in m.tokens
    ensures var steps := [] + [RefreshFind(c, token, now, session)]
                         + [RefreshIssue(c, draw.token, draw.expiresAt)] + [RefreshRotate(c, now)];
            var s' := Exec(Protocol, m, steps);
            && Legal(Protocol, m, steps) && s'.calls == m.calls
            && s'.sessions == AfterRotate(m.sessions, session.id, HmacOf(draw.token), draw.expiresAt, now)
            && s'.granted == m.granted + [(token, draw.token)]
  {
    hide Legal;
    hide Exec;
    hide FindReturns;
    hide AfterRotate;
    FoundRun(m, c, token, now, session);
    var t0, t1, t2 := RefreshFind(c, token, now, session), RefreshIssue(c, draw.token, draw.expiresAt),
      RefreshRotate(c, now);
    var issued := RefreshIssued(token, session.id, draw.token, draw.expiresAt);
    Replaced(m.calls, c, RefreshFound(token, session.id), issued);
    Replaced(m.calls, c, issued, issued);
    var s1 := m.(calls := m.calls[c := RefreshFound(token, session.id)]);
    ProtocolStep(m, [] + [t0], s1, t1);
    var s2 := m.(calls := m.calls[c := issued], tokens := m.tokens + {draw.token});
    assert After(s1, t1) == s2;
    ProtocolStep(m, [] + [t0] + [t1], s2, t2);
  }

  lemma LogoutRun(m: State, c: nat, token: string, now: Time, session: Session)
    requires c !in m.calls && FindReturns(m.sessions, HmacOf(token), now, Some(session))
    ensures var steps := [] + [LogoutFind(c, token, now, session)] + [LogoutRevoke(c, now)];
            && Legal(Protocol, m, steps)
            && Exec(Protocol, m, steps) == m.(sessions := AfterRevoke(m.sessions, session.id, now))
  {
    hide Legal;
    hide Exec;
    hide FindReturns;
    hide AfterRevoke;
    NoSteps(Protocol, m);
    Replaced(m.calls, c, LogoutFound(session.id), LogoutFound(session.id));
    var t0 := LogoutFind(c, token, now, session);
    ProtocolStep(m, [], m, t0);
    ProtocolStep(m, [] + [t0], m.(calls := m.calls[c := LogoutFound(session.id)]), LogoutRevoke(c, now));
  }
}
