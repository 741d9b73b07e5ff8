/**
 * Stateful sessions on the server: login, refresh with rotation and theft detection, logout
 * and password reset (packages/auth/src/auth/auth.service.ts). Signatures and argon2 are
 * idealised: a token is signed or it is not, and a hash matches its own token only. Times
 * are in seconds.
 */
module Sessions {
  import opened Prelude

  const ACCESS_TOKEN_TTL: int := 15 * 60
  const REFRESH_TOKEN_TTL: int := 7 * 24 * 60 * 60

  type UserId = nat
  type SessionId = nat

  datatype TokenType = Access | Refresh

  datatype Jwt = Jwt(kind: TokenType, sub: UserId, sessionId: SessionId, exp: int, signed: bool)

  datatype Hash = Argon2(plain: Jwt)

  datatype Session = Session(userId: UserId, refreshTokenHash: Hash, expiresAt: int, isActive: bool)

  datatype TokenPair = TokenPair(accessToken: Jwt, refreshToken: Jwt)

  datatype AuthError = InvalidRefreshToken | TheftDetected

  /** The sessions table, and the supply of fresh session ids. */
  datatype Server = Server(sessions: map<SessionId, Session>, next: SessionId)

  function IssuedPair(user: UserId, sid: SessionId, now: int): TokenPair {
    TokenPair(Jwt(Access, user, sid, now + ACCESS_TOKEN_TTL, true),
              Jwt(Refresh, user, sid, now + REFRESH_TOKEN_TTL, true))
  }

  function Issue(srv: Server, user: UserId, now: int): (Server, TokenPair) {
    var pair := IssuedPair(user, srv.next, now);
    var session := Session(user, Argon2(pair.refreshToken), now + REFRESH_TOKEN_TTL, true);
    (Server(srv.sessions[srv.next := session], srv.next + 1), pair)
  }

  function Deactivate(srv: Server, sid: SessionId): Server {
    if sid in srv.sessions then srv.(sessions := srv.sessions[sid := srv.sessions[sid].(isActive := false)])
    else srv
  }

  function RevokeAll(srv: Server, user: UserId): Server {
    srv.(sessions := map sid | sid in srv.sessions ::
      if srv.sessions[sid].userId == user then srv.sessions[sid].(isActive := false) else srv.sessions[sid])
  }

  predicate Verifies(token: Jwt, now: int) {
    token.signed && now < token.exp
  }

  datatype Verdict = Rejected | Stolen(userId: UserId) | Rotates(userId: UserId)

  /** The checks of a refresh, in the order the service makes them. */
  function Examine(srv: Server, token: Jwt, now: int): Verdict {
    if !Verifies(token, now) || token.kind != Refresh || token.sessionId !in srv.sessions then Rejected
    else
      var session := srv.sessions[token.sessionId];
      if session.userId != token.sub || session.expiresAt < now then Rejected
      else if session.refreshTokenHash != Argon2(token) then Rejected
      else if !session.isActive then Stolen(session.userId)
      else Rotates(session.userId)
  }

  /** A refresh with nothing in between its statements. */
  function RefreshStep(srv: Server, token: Jwt, now: int): (Server, Result<TokenPair, AuthError>) {
    match Examine(srv, token, now)
    case Rejected => (srv, Err(InvalidRefreshToken))
    case Stolen(user) => (RevokeAll(srv, user), Err(TheftDetected))
    case Rotates(user) =>
      var (srv', pair) := Issue(Deactivate(srv, token.sessionId), user, now);
      (srv', Ok(pair))
  }

  datatype Request =
    | Login(user: UserId)
    | RefreshWith(token: Jwt)
    | Logout(sessionId: SessionId)
    | ResetPassword(user: UserId)

  function Serve(srv: Server, r: Request, now: int): Server {
    match r
    case Login(user) => Issue(srv, user, now).0
    case RefreshWith(token) => RefreshStep(srv, token, now).0
    case Logout(sid) => Deactivate(srv, sid)
    case ResetPassword(user) => RevokeAll(srv, user)
  }

  datatype Timed = At(request: Request, now: int)

  function Run(srv: Server, requests: seq<Timed>): Server
    decreases |requests|
  {
    if requests == [] then srv else Run(Serve(srv, requests[0].request, requests[0].now), requests[1..])
  }

  /** Session ids come from a fresh supply (UUID v7). */
  predicate WellFormed(srv: Server) {
    forall sid :: sid in srv.sessions ==> sid < srv.next
  }

  // ---------------------------------------------------------------------------
  // What a refresh answers, and whom it touches
  // ---------------------------------------------------------------------------

  /** The token is a refresh token in force, the one its session was created with, and its user's. */
  predicate Presentable(srv: Server, token: Jwt, now: int) {
    && token.signed && now < token.exp && token.kind == Refresh
    && token.sessionId in srv.sessions
    && srv.sessions[token.sessionId].userId == token.sub && now <= srv.sessions[token.sessionId].expiresAt
    && srv.sessions[token.sessionId].refreshTokenHash == Argon2(token)
  }

  /** Every session of the user is off, and nothing else has changed. */
  predicate AllOff(srv: Server, srv': Server, user: UserId) {
    && srv'.next == srv.next && srv'.sessions.Keys == srv.sessions.Keys
    && forall sid :: sid in srv.sessions ==>
         srv'.sessions[sid] ==
           if srv.sessions[sid].userId == user then srv.sessions[sid].(isActive := false) else srv.sessions[sid]
  }

  /**
   * The three answers of a refresh. Any fault of the token is a plain refusal that changes
   * nothing; a good token of a session that is off is the alarm, and turns off all of its
   * user's sessions and nobody else's; a good token of an active one trades that session for
   * a new one of the same user.
   */
  lemma RefreshAnswers(srv: Server, token: Jwt, now: int)
    requires WellFormed(srv)
    ensures
      var (srv', answer) := RefreshStep(srv, token, now);
      if !Presentable(srv, token, now) then srv' == srv && answer == Err(InvalidRefreshToken)
      else if !srv.sessions[token.sessionId].isActive then AllOff(srv, srv', token.sub) && answer == Err(TheftDetected)
      else
        && answer.Ok?
        && answer.value.accessToken == Jwt(Access, token.sub, srv.next, now + 900, true)
        && answer.value.refreshToken == Jwt(Refresh, token.sub, srv.next, now + 604800, true)
        && srv'.next == srv.next + 1
        && srv'.sessions == srv.sessions[token.sessionId := srv.sessions[token.sessionId].(isActive := false)]
             [srv.next := Session(token.sub, Argon2(answer.value.refreshToken), now + 604800, true)]
  {
  }

  /** Whom the other requests touch. */
  lemma OthersAreLeftAlone(srv: Server, r: Request, now: int)
    requires WellFormed(srv)
    ensures
      var srv' := Serve(srv, r, now);
      match r
      case Login(user) =>
        && srv'.sessions.Keys == srv.sessions.Keys + {srv.next} && srv'.sessions[srv.next].userId == user
        && forall sid :: sid in srv.sessions ==> srv'.sessions[sid] == srv.sessions[sid]
      case RefreshWith(token) =>
        forall sid :: sid in srv.sessions && srv.sessions[sid].userId != token.sub ==>
          sid in srv'.sessions && srv'.sessions[sid] == srv.sessions[sid]
      case Logout(closed) =>
        && srv'.sessions.Keys == srv.sessions.Keys
        && forall sid :: sid in srv.sessions ==>
             srv'.sessions[sid] == if sid == closed then srv.sessions[sid].(isActive := false) else srv.sessions[sid]
      case ResetPassword(user) => AllOff(srv, srv', user)
  {
  }

  // ---------------------------------------------------------------------------
  // What every request, and so every run, keeps
  // ---------------------------------------------------------------------------

  /** srv' is a later state: no session is lost, changes hands, or comes back to life. */
  ghost predicate Later(srv: Server, srv': Server) {
    && WellFormed(srv')
    && srv.next <= srv'.next
    && (forall sid :: sid in srv.sessions ==>
          && sid in srv'.sessions
          && srv'.sessions[sid].(isActive := true) == srv.sessions[sid].(isActive := true)
          && (srv'.sessions[sid].isActive ==> srv.sessions[sid].isActive))
    && (forall sid :: sid in srv'.sessions && sid < srv.next ==> sid in srv.sessions)
  }

  lemma ServeIsLater(srv: Server, r: Request, now: int)
    requires WellFormed(srv)
    ensures Later(srv, Serve(srv, r, now))
  {
  }

  lemma LaterTransitive(a: Server, b: Server, c: Server)
    requires Later(a, b) && Later(b, c)
    ensures Later(a, c)
  {
    forall sid | sid in a.sessions
      ensures sid in c.sessions && c.sessions[sid].(isActive := true) == a.sessions[sid].(isActive := true)
      ensures c.sessions[sid].isActive ==> a.sessions[sid].isActive
    {
      assert sid in b.sessions;
    }
  }

  /** No run brings an inactive session back. */
  lemma {:induction false} NeverReactivated(srv: Server, requests: seq<Timed>)
    requires WellFormed(srv)
    ensures Later(srv, Run(srv, requests))
    decreases |requests|
  {
    if requests != [] {
      var srv' := Serve(srv, requests[0].request, requests[0].now);
      ServeIsLater(srv, requests[0].request, requests[0].now);
      NeverReactivated(srv', requests[1..]);
      LaterTransitive(srv, srv', Run(srv', requests[1..]));
    }
  }

  /** A session that is inactive, or absent with an old id, lets no token in, however late. */
  lemma DeadStaysDead(srv: Server, requests: seq<Timed>, token: Jwt, now: int)
    requires WellFormed(srv) && token.sessionId < srv.next
    requires token.sessionId in srv.sessions ==> !srv.sessions[token.sessionId].isActive
    ensures !Examine(Run(srv, requests), token, now).Rotates?
  {
    NeverReactivated(srv, requests);
  }

  function ActiveOf(srv: Server, user: UserId): set<SessionId> {
    set sid | sid in srv.sessions && srv.sessions[sid].userId == user && srv.sessions[sid].isActive
  }

  /**
   * What a login hands out: an access token for a quarter of an hour, and a refresh token that
   * is accepted, whatever was served in between, exactly until seven days later and while its
   * session is active; and no other token opens that session.
   */
  lemma IssuedIsAccepted(srv: Server, user: UserId, t0: int, requests: seq<Timed>, t1: int, other: Jwt)
    requires WellFormed(srv)
    ensures
      var (mid, pair) := Issue(srv, user, t0);
      var later := Run(mid, requests);
      && pair.accessToken == Jwt(Access, user, srv.next, t0 + 900, true)
      && (RefreshStep(later, pair.refreshToken, t1).1.Ok? <==>
            t1 < t0 + 604800 && srv.next in ActiveOf(later, user))
      && (other.sessionId == srv.next && other != pair.refreshToken ==>
            RefreshStep(later, other, t1) == (later, Err(InvalidRefreshToken)))
      && mid.sessions.Keys == srv.sessions.Keys + {srv.next} && srv.next in ActiveOf(mid, user)
      && (forall sid :: sid in srv.sessions ==> mid.sessions[sid] == srv.sessions[sid])
  {
    var (mid, pair) := Issue(srv, user, t0);
    var later := Run(mid, requests);
    ServeIsLater(srv, Login(user), t0);
    NeverReactivated(mid, requests);
    assert later.sessions[srv.next].(isActive := true) == mid.sessions[srv.next];
  }

  /**
   * Each refresh token is accepted at most once: after it has been, any run later, presenting
   * it again is refused; and until it expires the refusal is the theft alarm.
   */
  lemma AcceptedOnce(srv: Server, token: Jwt, t0: int, requests: seq<Timed>, t1: int)
    requires WellFormed(srv)
    requires RefreshStep(srv, token, t0).1.Ok?
    ensures
      var later := Run(RefreshStep(srv, token, t0).0, requests);
      && RefreshStep(later, token, t1).1.Err?
      && (RefreshStep(later, token, t1).1.error == TheftDetected <==>
            t1 < token.exp && t1 <= srv.sessions[token.sessionId].expiresAt)
  {
    var mid := RefreshStep(srv, token, t0).0;
    ServeIsLater(srv, RefreshWith(token), t0);
    NeverReactivated(mid, requests);
    DeadStaysDead(mid, requests, token, t1);
    var later := Run(mid, requests);
    assert later.sessions[token.sessionId].(isActive := true) == srv.sessions[token.sessionId].(isActive := true);
  }

  /** After a theft alarm no token issued up to then to that user is ever accepted again. */
  lemma TheftRevokesEverything(srv: Server, token: Jwt, t0: int, requests: seq<Timed>, other: Jwt, t1: int)
    requires WellFormed(srv)
    requires RefreshStep(srv, token, t0).1 == Err(TheftDetected)
    requires other.sessionId < srv.next && other.sub == token.sub
    ensures RefreshStep(Run(RefreshStep(srv, token, t0).0, requests), other, t1).1.Err?
  {
    RevokedForever(srv, token.sub, requests, other, t1);
  }

  /** Likewise after a password reset. */
  lemma RevokedForever(srv: Server, user: UserId, requests: seq<Timed>, other: Jwt, t1: int)
    requires WellFormed(srv)
    requires other.sessionId < srv.next && other.sub == user
    ensures RefreshStep(Run(RevokeAll(srv, user), requests), other, t1).1.Err?
  {
    var cut := RevokeAll(srv, user);
    NeverReactivated(cut, requests);
    var later := Run(cut, requests);
    assert forall sid :: sid in cut.sessions ==>
        later.sessions[sid].(isActive := true) == cut.sessions[sid].(isActive := true);
  }

  /** A successful refresh trades one active session for one: every user keeps their number. */
  lemma RefreshConserves(srv: Server, token: Jwt, now: int, user: UserId)
    requires WellFormed(srv)
    requires RefreshStep(srv, token, now).1.Ok?
    ensures
      var after := RefreshStep(srv, token, now).0;
      && |ActiveOf(after, user)| == |ActiveOf(srv, user)|
      && (user == token.sub ==> ActiveOf(after, user) == ActiveOf(srv, user) - {token.sessionId} + {srv.next})
      && (user != token.sub ==> ActiveOf(after, user) == ActiveOf(srv, user))
  {
    var after := RefreshStep(srv, token, now).0;
    if user == token.sub {
      assert ActiveOf(after, user) == ActiveOf(srv, user) - {token.sessionId} + {srv.next};
      assert srv.next !in ActiveOf(srv, user) && token.sessionId in ActiveOf(srv, user);
    } else {
      assert ActiveOf(after, user) == ActiveOf(srv, user);
    }
  }

  // ---------------------------------------------------------------------------
  // The service
  // ---------------------------------------------------------------------------

  class AuthService {
    var sessions: map<SessionId, Session>
    var nextId: SessionId

    ghost function View(): Server
      reads this
    {
      Server(sessions, nextId)
    }

    constructor ()
      ensures View() == Server(map[], 0) && WellFormed(View())
    {
      sessions, nextId := map[], 0;
    }

    method IssueTokensAndCreateSession(user: UserId, now: int) returns (tokens: TokenPair)
      requires WellFormed(View())
      modifies this
      ensures (View(), tokens) == Issue(old(View()), user, now)
      ensures Later(old(View()), View())
    {
      var sessionId := nextId;
      nextId := nextId + 1;
      var accessToken := Jwt(Access, user, sessionId, now + ACCESS_TOKEN_TTL, true);
      var refreshToken := Jwt(Refresh, user, sessionId, now + REFRESH_TOKEN_TTL, true);
      sessions := sessions[sessionId := Session(user, Argon2(refreshToken), now + REFRESH_TOKEN_TTL, true)];
      tokens := TokenPair(accessToken, refreshToken);
    }

    method RefreshTokens(token: Jwt, now: int) returns (r: Result<TokenPair, AuthError>)
      requires WellFormed(View())
      modifies this
      ensures (View(), r) == RefreshStep(old(View()), token, now)
      ensures Later(old(View()), View())
    {
      if !token.signed || token.exp <= now {
        return Err(InvalidRefreshToken);
      }
      if token.kind != Refresh {
        return Err(InvalidRefreshToken);
      }
      if token.sessionId !in sessions {
        return Err(InvalidRefreshToken);
      }
      var session := sessions[token.sessionId];
      if session.userId != token.sub || session.expiresAt < now {
        return Err(InvalidRefreshToken);
      }
      if session.refreshTokenHash != Argon2(token) {
        return Err(InvalidRefreshToken);
      }
      if !session.isActive {
        RevokeSessions(session.userId);
        return Err(TheftDetected);
      }
      sessions := sessions[token.sessionId := session.(isActive := false)];
      var tokens := IssueTokensAndCreateSession(session.userId, now);
      r := Ok(tokens);
    }

    /** The update throws on an unknown session and then changes nothing. */
    method LogoutSession(sessionId: SessionId) returns (found: bool)
      requires WellFormed(View())
      modifies this`sessions
      ensures View() == Deactivate(old(View()), sessionId)
      ensures Later(old(View()), View())
      ensures found == (sessionId in old(sessions)) && (found ==> !sessions[sessionId].isActive)
    {
      found := sessionId in sessions;
      if found {
        sessions := sessions[sessionId := sessions[sessionId].(isActive := false)];
      }
    }

    /** updateMany over the active sessions of one user. */
    method RevokeSessions(user: UserId)
      requires WellFormed(View())
      modifies this
      ensures View() == RevokeAll(old(View()), user)
      ensures Later(old(View()), View())
      ensures ActiveOf(View(), user) == {}
    {
      var active := map sid | sid in sessions && sessions[sid].userId == user && sessions[sid].isActive ::
        sessions[sid].(isActive := false);
      sessions := sessions + active;
      assert sessions.Keys == old(sessions).Keys;
    }
  }
}
