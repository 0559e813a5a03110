// Login sessions, each found by the hash of the one refresh token it has installed.
module Sessions {
  import opened Results
  import opened Clock

  // The keyed hash of a refresh token; distinct tokens have distinct hashes.
  datatype TokenHash = HmacOf(token: string)

  datatype Session = Session(
    id: string, userId: string, refreshTokenHash: TokenHash, deviceId: string, userAgent: string, ipAddress: string,
    expiresAt: Time, rotatedAt: Option<Time>, revokedAt: Option<Time>, createdAt: Time)

  type SessionMap = map<string, Session>

  predicate Usable(session: Session, now: Time) {
    session.revokedAt.None? && session.expiresAt > now
  }

  // What a find may return: the first session met with the hash decides, so a revoked or
  // expired one hides any other.
  ghost predicate FindReturns(sessions: SessionMap, hash: TokenHash, now: Time, found: Option<Session>) {
    match found
    case Some(session) =>
      Usable(session, now) && session.refreshTokenHash == hash && exists id | id in sessions :: sessions[id] == session
    case None =>
      || (forall id | id in sessions :: sessions[id].refreshTokenHash != hash)
      || (exists id | id in sessions :: sessions[id].refreshTokenHash == hash && !Usable(sessions[id], now))
  }

  // Rotation replaces the hash and the expiry and leaves RevokedAt as it is.
  function Rotated(session: Session, hash: TokenHash, expiresAt: Time, now: Time): Session {
    session.(refreshTokenHash := hash, expiresAt := expiresAt, rotatedAt := Some(now))
  }

  function AfterRotate(sessions: SessionMap, id: string, hash: TokenHash, expiresAt: Time, now: Time): SessionMap {
    if id in sessions then sessions[id := Rotated(sessions[id], hash, expiresAt, now)] else sessions
  }

  function AfterRevoke(sessions: SessionMap, id: string, now: Time): SessionMap {
    if id in sessions then sessions[id := sessions[id].(revokedAt := Some(now))] else sessions
  }

  // The token with this hash is good at the given time: it is installed in the session,
  // which is not revoked and not expired.
  ghost predicate Live(session: Session, hash: TokenHash, at: Time) {
    session.refreshTokenHash == hash && session.revokedAt.None? && at < session.expiresAt
  }

  // A find returns exactly the stored sessions in which the token is good.
  lemma FindsLive(sessions: SessionMap, hash: TokenHash, at: Time, session: Session)
    ensures FindReturns(sessions, hash, at, Some(session)) <==>
              Live(session, hash, at) && exists id | id in sessions :: sessions[id] == session
  {
  }

  lemma FindsNoneIff(sessions: SessionMap, hash: TokenHash, at: Time)
    ensures (forall s :: !FindReturns(sessions, hash, at, Some(s))) <==>
              forall id | id in sessions :: !Live(sessions[id], hash, at)
  {
    hide Live;
    forall s ensures FindReturns(sessions, hash, at, Some(s)) <==>
                       Live(s, hash, at) && exists id | id in sessions :: sessions[id] == s
    {
      FindsLive(sessions, hash, at, s);
    }
    hide FindReturns;
    if forall s :: !FindReturns(sessions, hash, at, Some(s)) {
      forall id | id in sessions ensures !Live(sessions[id], hash, at) {
        assert !FindReturns(sessions, hash, at, Some(sessions[id]));
      }
    }
  }
}
