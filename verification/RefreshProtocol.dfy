/**
 * The refresh protocol end to end: browser tabs that share one token store
 * (packages/auth-web/src/auth.ts), each with its module variable `refreshInFlight`
 * (packages/auth-web/src/auth-refresh.ts); concurrent requests that answer a 401 with the
 * refresh hook and one retry (packages/api-client/src/index.ts); the server's refresh split
 * at its database calls: read and check, deactivate, create
 * (packages/auth/src/auth/auth.service.ts); a logout in its two halves
 * (packages/auth-web/src/auth-logout.ts); and the loading of a page anew.
 *
 * Everything that can happen is an event; a run is any sequence of events.
 */
module RefreshProtocol {
  import opened Prelude
  import opened Sessions

  type RequestId = nat
  type TabId = nat
  type JobId = nat

  // ---------------------------------------------------------------------------
  // The client
  // ---------------------------------------------------------------------------

  /** localStorage, two keys. */
  datatype Store = Store(access: Option<Jwt>, refresh: Option<Jwt>)

  const EMPTY_STORE := Store(None, None)

  function Stored(pair: TokenPair): Store {
    Store(Some(pair.accessToken), Some(pair.refreshToken))
  }

  /** The promise in `refreshInFlight`: the POST it waits for, and who awaits it. */
  datatype Flight = Flight(job: JobId, waiters: set<RequestId>)

  datatype Phase =
    | Sent(skipAuthRetry: bool)  // the fetch is out; true on the retry
    | Waiting                    // a 401 came, the refresh promise is awaited
    | Finished(ok: bool)

  datatype ApiCall = ApiCall(tab: TabId, phase: Phase, fetches: nat)

  // ---------------------------------------------------------------------------
  // The server's refresh, between its statements
  // ---------------------------------------------------------------------------

  datatype Job =
    | Received
    | Checked(userId: UserId)      // the session was read, active and matching
    | Deactivated(userId: UserId)  // the old session is off, the new one not yet there
    | Answered(reply: Option<TokenPair>)
    | Delivered

  datatype Net = Net(
    srv: Server,
    jobs: seq<Job>,                      // one per POST /auth/refresh, in the order sent
    posted: seq<Jwt>,                    // the token each of them carried
    mail: set<TokenPair>,                // login replies under way
    store: Store,
    tabs: seq<Option<Flight>>,           // each tab's refreshInFlight
    calls: map<RequestId, ApiCall>,
    theft: bool)                         // the theft branch was entered

  datatype Event =
    | ServerLogin(user: UserId, loginNow: int)
    | LoginReply(pair: TokenPair)
    | Fire(fireTab: TabId, fired: RequestId)
    | Succeeds(served: RequestId)
    | Unauthorized(refused: RequestId)
    | Read(readJob: JobId, readNow: int)
    | TurnOff(offJob: JobId)
    | Insert(insertJob: JobId, insertNow: int)
    | Reply(replyTab: TabId)
    | Drop(dropTab: TabId)               // the refresh fetch fails at the client
    | ClearTokens                        // AuthContext on a 401 of /me, and the end of a logout
    | ServerLogout(closed: SessionId)    // the server's half of a logout, whenever it gets there
    | Revoke(user: UserId)               // password reset: all the user's sessions closed
    | Reload(reloaded: TabId)            // the page is loaded again: memory lost, localStorage kept

  // ---------------------------------------------------------------------------
  // Steps
  // ---------------------------------------------------------------------------

  function Resume(calls: map<RequestId, ApiCall>, waiters: set<RequestId>, ok: bool): map<RequestId, ApiCall> {
    map r | r in calls ::
      if r in waiters then
        (if ok then calls[r].(phase := Sent(true), fetches := calls[r].fetches + 1)
         else calls[r].(phase := Finished(false)))
      else calls[r]
  }

  /** The promise settles: tokens saved or cleared, the variable reset, every waiter resumed. */
  function Settle(n: Net, tab: TabId, reply: Option<TokenPair>): Net
    requires tab < |n.tabs| && n.tabs[tab].Some?
  {
    n.(store := if reply.Some? then Stored(reply.value) else EMPTY_STORE,
       tabs := n.tabs[tab := None],
       calls := Resume(n.calls, n.tabs[tab].value.waiters, reply.Some?))
  }

  /** refreshAccessToken(): join the promise in flight, or start one with the stored token. */
  function RefreshAccessToken(n: Net, tab: TabId, r: RequestId): Net
    requires tab < |n.tabs| && r in n.calls
  {
    var waiting := n.calls[r := n.calls[r].(phase := Waiting)];
    if n.tabs[tab].Some? then
      var f := n.tabs[tab].value;
      n.(tabs := n.tabs[tab := Some(f.(waiters := f.waiters + {r}))], calls := waiting)
    else if n.store.refresh.None? then
      n.(calls := n.calls[r := n.calls[r].(phase := Finished(false))])
    else
      n.(jobs := n.jobs + [Received], posted := n.posted + [n.store.refresh.value],
         tabs := n.tabs[tab := Some(Flight(|n.jobs|, {r}))], calls := waiting)
  }

  /** The first statement: read the session, run the checks, and on reuse revoke. */
  function ReadStep(n: Net, j: JobId, now: int): Net
    requires j < |n.jobs| && j < |n.posted|
  {
    match Examine(n.srv, n.posted[j], now)
    case Rejected => n.(jobs := n.jobs[j := Answered(None)])
    case Stolen(user) => n.(srv := RevokeAll(n.srv, user), jobs := n.jobs[j := Answered(None)], theft := true)
    case Rotates(user) => n.(jobs := n.jobs[j := Checked(user)])
  }

  function TurnOffStep(n: Net, j: JobId): Net
    requires j < |n.jobs| && j < |n.posted| && n.jobs[j].Checked?
  {
    n.(srv := Deactivate(n.srv, n.posted[j].sessionId), jobs := n.jobs[j := Deactivated(n.jobs[j].userId)])
  }

  function InsertStep(n: Net, j: JobId, now: int): Net
    requires j < |n.jobs| && n.jobs[j].Deactivated?
  {
    var (srv', pair) := Issue(n.srv, n.jobs[j].userId, now);
    n.(srv := srv', jobs := n.jobs[j := Answered(Some(pair))])
  }

  /** One event; an event that is not possible in n changes nothing. */
  function Step(n: Net, e: Event): Net {
    match e
    case ServerLogin(user, now) =>
      var (srv', pair) := Issue(n.srv, user, now);
      n.(srv := srv', mail := n.mail + {pair})
    case LoginReply(pair) =>
      if pair in n.mail then n.(mail := n.mail - {pair}, store := Stored(pair)) else n
    case Fire(tab, r) =>
      if tab < |n.tabs| && r !in n.calls then n.(calls := n.calls[r := ApiCall(tab, Sent(false), 1)]) else n
    case Succeeds(r) =>
      if r in n.calls && n.calls[r].phase.Sent? then n.(calls := n.calls[r := n.calls[r].(phase := Finished(true))])
      else n
    case Unauthorized(r) =>
      if r !in n.calls || !n.calls[r].phase.Sent? || n.calls[r].tab >= |n.tabs| then n
      else if n.calls[r].phase.skipAuthRetry then n.(calls := n.calls[r := n.calls[r].(phase := Finished(false))])
      else RefreshAccessToken(n, n.calls[r].tab, r)
    case Read(j, now) =>
      if j < |n.jobs| && j < |n.posted| && n.jobs[j].Received? then ReadStep(n, j, now) else n
    case TurnOff(j) =>
      if j < |n.jobs| && j < |n.posted| && n.jobs[j].Checked? then TurnOffStep(n, j) else n
    case Insert(j, now) =>
      if j < |n.jobs| && n.jobs[j].Deactivated? then InsertStep(n, j, now) else n
    case Reply(tab) =>
      if tab < |n.tabs| && n.tabs[tab].Some? && n.tabs[tab].value.job < |n.jobs|
         && n.jobs[n.tabs[tab].value.job].Answered?
      then
        var j := n.tabs[tab].value.job;
        Settle(n, tab, n.jobs[j].reply).(jobs := n.jobs[j := Delivered])
      else n
    case Drop(tab) =>
      if tab < |n.tabs| && n.tabs[tab].Some? then Settle(n, tab, None) else n
    case ClearTokens => n.(store := EMPTY_STORE)
    case ServerLogout(sid) => n.(srv := Deactivate(n.srv, sid))
    case Revoke(user) => n.(srv := RevokeAll(n.srv, user))
    case Reload(tab) =>
      if tab < |n.tabs|
      then n.(tabs := n.tabs[tab := None], calls := map r | r in n.calls && n.calls[r].tab != tab :: n.calls[r])
      else n
  }

  function Run(n: Net, events: seq<Event>): Net
    decreases |events|
  {
    if events == [] then n else Run(Step(n, events[0]), events[1..])
  }

  function Start(tabs: nat): Net {
    Net(Server(map[], 0), [], [], {}, EMPTY_STORE, seq(tabs, _ => None), map[], false)
  }

  // ---------------------------------------------------------------------------
  // What can make a token look stolen
  // ---------------------------------------------------------------------------

  predicate Live(n: Net, sid: SessionId) {
    sid in n.srv.sessions && n.srv.sessions[sid].isActive
  }

  function Sid(p: TokenPair): SessionId {
    p.refreshToken.sessionId
  }

  ghost predicate Posted(n: Net, sid: SessionId) {
    exists i :: 0 <= i < |n.posted| && n.posted[i].sessionId == sid
  }

  /** A POST that carries the token is under way, or the server has taken the token. */
  ghost predicate Presented(n: Net, sid: SessionId) {
    exists i :: 0 <= i < |n.posted| && i < |n.jobs| && n.posted[i].sessionId == sid && n.jobs[i] != Answered(None)
  }

  /** A tab is waiting for this POST, which is answered with the pair. */
  predicate Awaits(n: Net, p: TokenPair) {
    exists t :: 0 <= t < |n.tabs| && n.tabs[t].Some? && n.tabs[t].value.job < |n.jobs|
                && n.jobs[n.tabs[t].value.job] == Answered(Some(p))
  }

  /** A POST that carries the token has yet to be checked by the server. */
  predicate Unread(n: Net, sid: SessionId) {
    exists j :: 0 <= j < |n.jobs| && j < |n.posted| && n.jobs[j].Received? && n.posted[j].sessionId == sid
  }

  /** The 401 of r makes its tab post the stored token: no refresh of the tab's is in flight. */
  predicate StartsRefresh(n: Net, r: RequestId) {
    && r in n.calls && n.calls[r].phase == Sent(false) && n.calls[r].tab < |n.tabs|
    && n.tabs[n.calls[r].tab].None? && n.store.refresh.Some?
  }

  /**
   * The three overlaps with a refresh: the end of a session while its token is on its way to
   * the check; a refresh begun with the token of a session that has ended, between the halves
   * of a logout or after a revocation; a page load while the stored token is in a refresh
   * under way, or taken. Everything else is benign.
   */
  ghost predicate Benign(n: Net, e: Event) {
    match e
    case ServerLogout(sid) => !(Live(n, sid) && Unread(n, sid))
    case Revoke(user) => forall sid :: Live(n, sid) && Unread(n, sid) ==> n.srv.sessions[sid].userId != user
    case Unauthorized(r) =>
      StartsRefresh(n, r) ==>
        Live(n, n.store.refresh.value.sessionId) || Presented(n, n.store.refresh.value.sessionId)
    case Reload(tab) =>
      tab < |n.tabs| && n.store.refresh.Some? ==> !Presented(n, n.store.refresh.value.sessionId)
    case _ => true
  }

  /** Every event of the run is benign when its turn comes. */
  ghost predicate Calm(n: Net, events: seq<Event>)
    decreases |events|
  {
    events == [] || (Benign(n, events[0]) && Calm(Step(n, events[0]), events[1..]))
  }

  // ---------------------------------------------------------------------------
  // The invariant, for at most one tab
  // ---------------------------------------------------------------------------

  /** The token is the one its session was created with. */
  predicate Genuine(srv: Server, token: Jwt) {
    && token.signed && token.kind == Refresh && token.sessionId in srv.sessions
    && var session := srv.sessions[token.sessionId];
       session.userId == token.sub && session.refreshTokenHash == Argon2(token) && session.expiresAt == token.exp
  }

  ghost predicate TokensGenuine(n: Net) {
    && WellFormed(n.srv)
    && (forall i :: 0 <= i < |n.posted| ==> Genuine(n.srv, n.posted[i]))
    && (n.store.refresh.Some? ==> Genuine(n.srv, n.store.refresh.value))
    && (forall p :: p in n.mail ==> Genuine(n.srv, p.refreshToken))
    && (forall j :: 0 <= j < |n.jobs| && n.jobs[j].Answered? && n.jobs[j].reply.Some? ==>
          Genuine(n.srv, n.jobs[j].reply.value.refreshToken))
  }

  /** A token goes out again only after the server refused it. */
  ghost predicate PostedOnce(n: Net) {
    && |n.posted| == |n.jobs|
    && forall i, j :: 0 <= i < j < |n.posted| && n.posted[i].sessionId == n.posted[j].sessionId ==>
         n.jobs[i] == Answered(None)
  }

  /** A session is active until its token is checked, and off once its successor is there. */
  ghost predicate JobsInStep(n: Net)
    requires |n.posted| == |n.jobs|
  {
    && (forall j :: 0 <= j < |n.jobs| && n.jobs[j].Received? ==> Live(n, n.posted[j].sessionId))
    && (forall j :: 0 <= j < |n.jobs| && (n.jobs[j].Deactivated? || (n.jobs[j].Answered? && n.jobs[j].reply.Some?)) ==>
          !Live(n, n.posted[j].sessionId))
  }

  /** A token nobody has presented yet. */
  ghost predicate Unspent(n: Net, p: TokenPair) {
    !Posted(n, Sid(p))
  }

  /** Pairs on their way to the browser are unspent, and each is on one way only. */
  ghost predicate OnTheWay(n: Net) {
    && (forall p :: p in n.mail || Awaits(n, p) ==> Unspent(n, p))
    && (forall p, q :: p in n.mail && q in n.mail && Sid(p) == Sid(q) ==> p == q)
    && (forall p, q :: p in n.mail && Awaits(n, q) ==> Sid(p) != Sid(q))
  }

  /** The tab waits for the last POST, and for a stored token that is presented. */
  ghost predicate StoreSafe(n: Net)
    requires |n.posted| == |n.jobs|
  {
    && (forall t :: 0 <= t < |n.tabs| && n.tabs[t].Some? ==>
          n.tabs[t].value.job == |n.jobs| - 1 && n.jobs[n.tabs[t].value.job] != Delivered)
    && (n.store.refresh.Some? ==>
          var sid := n.store.refresh.value.sessionId;
          && (forall p :: p in n.mail || Awaits(n, p) ==> Sid(p) != sid)
          && (Presented(n, sid) ==>
                && |n.tabs| == 1 && n.tabs[0].Some? && n.posted[|n.jobs| - 1].sessionId == sid
                && n.jobs[|n.jobs| - 1] != Answered(None)))
  }

  ghost predicate Inv(n: Net) {
    && |n.tabs| <= 1
    && !n.theft
    && PostedOnce(n) && JobsInStep(n) && TokensGenuine(n) && OnTheWay(n) && StoreSafe(n)
  }

  /** A session more, under a fresh id: nothing that was said of the others changes. */
  lemma IssuedIsNew(n: Net, user: UserId, now: int, n': Net)
    requires TokensGenuine(n) && |n.posted| == |n.jobs|
    requires n'.srv == Issue(n.srv, user, now).0 && n'.posted == n.posted
    ensures forall t :: Genuine(n.srv, t) ==> Genuine(n'.srv, t) && t.sessionId != n.srv.next
    ensures Genuine(n'.srv, IssuedPair(user, n.srv.next, now).refreshToken)
    ensures forall x :: Posted(n', x) == Posted(n, x)
    ensures forall x :: x != n.srv.next ==> Live(n', x) == Live(n, x)
    ensures Live(n', n.srv.next) && !Posted(n, n.srv.next) && WellFormed(n'.srv)
    ensures forall i :: 0 <= i < |n.posted| ==> n.posted[i].sessionId != n.srv.next
  {
    forall i | 0 <= i < |n.posted| ensures n.posted[i].sessionId < n.srv.next {
      assert Genuine(n.srv, n.posted[i]);
    }
  }

  lemma LoginKeepsJobs(n: Net, user: UserId, now: int)
    requires Inv(n)
    ensures
      var n' := Step(n, ServerLogin(user, now));
      PostedOnce(n') && JobsInStep(n') && TokensGenuine(n')
  {
    IssuedIsNew(n, user, now, Step(n, ServerLogin(user, now)));
  }

  lemma LoginKeepsWays(n: Net, user: UserId, now: int)
    requires Inv(n)
    ensures OnTheWay(Step(n, ServerLogin(user, now)))
  {
    var n' := Step(n, ServerLogin(user, now));
    IssuedIsNew(n, user, now, n');
    forall p ensures Awaits(n', p) == Awaits(n, p) {}
    forall p | p in n.mail || Awaits(n, p) ensures Sid(p) < n.srv.next {
      assert Genuine(n.srv, p.refreshToken);
    }
  }

  lemma LoginKeeps(n: Net, user: UserId, now: int)
    requires Inv(n)
    ensures Inv(Step(n, ServerLogin(user, now)))
  {
    var n' := Step(n, ServerLogin(user, now));
    LoginKeepsJobs(n, user, now);
    LoginKeepsWays(n, user, now);
    IssuedIsNew(n, user, now, n');
    forall p ensures Awaits(n', p) == Awaits(n, p) {}
    forall x ensures Presented(n', x) == Presented(n, x) {}
  }

  lemma LoginReplyKeeps(n: Net, pair: TokenPair)
    requires Inv(n)
    ensures Inv(Step(n, LoginReply(pair)))
  {
    if pair in n.mail {
      var n' := Step(n, LoginReply(pair));
      SameJobs(n, n');
      assert Unspent(n, pair);
      assert !Presented(n', Sid(pair));
    }
  }

  /** With the same server, POSTs and tabs, the same tokens are live, posted, presented and awaited. */
  lemma SameJobs(n: Net, n': Net)
    requires n'.srv == n.srv && n'.jobs == n.jobs && n'.posted == n.posted && |n'.tabs| == |n.tabs|
    requires forall t :: 0 <= t < |n.tabs| ==> n'.tabs[t].Some? == n.tabs[t].Some?
    requires forall t :: 0 <= t < |n.tabs| && n.tabs[t].Some? ==> n'.tabs[t].value.job == n.tabs[t].value.job
    ensures forall x :: Posted(n', x) == Posted(n, x)
    ensures forall x :: Presented(n', x) == Presented(n, x)
    ensures forall x :: Live(n', x) == Live(n, x)
    ensures forall p :: Awaits(n', p) == Awaits(n, p)
  {
  }

  lemma SameTokens(n: Net, n': Net)
    requires Inv(n)
    requires n'.srv == n.srv && n'.jobs == n.jobs && n'.posted == n.posted && n'.mail == n.mail
    requires n'.store == n.store && n'.theft == n.theft && |n'.tabs| == |n.tabs|
    requires forall t :: 0 <= t < |n.tabs| ==> n'.tabs[t].Some? == n.tabs[t].Some?
    requires forall t :: 0 <= t < |n.tabs| && n.tabs[t].Some? ==> n'.tabs[t].value.job == n.tabs[t].value.job
    ensures Inv(n')
  {
    SameJobs(n, n');
  }

  /** Starting a flight posts a token that is not presented, and whose session is active. */
  lemma PostAdds(n: Net, r: RequestId)
    requires Inv(n) && StartsRefresh(n, r) && Benign(n, Unauthorized(r))
    ensures
      var n' := RefreshAccessToken(n, n.calls[r].tab, r);
      var sid := n.store.refresh.value.sessionId;
      && !Presented(n, sid) && Live(n, sid) && Presented(n', sid)
      && (forall x :: x != sid ==> Posted(n', x) == Posted(n, x))
      && (forall p :: !Awaits(n', p))
  {
    var n' := RefreshAccessToken(n, n.calls[r].tab, r);
    assert forall j :: 0 <= j < |n.jobs| ==> n'.jobs[j] == n.jobs[j] && n'.posted[j] == n.posted[j];
    assert n'.jobs[|n.jobs|] == Received && n'.posted[|n.jobs|] == n.store.refresh.value;
  }

  lemma PostKeepsJobs(n: Net, r: RequestId)
    requires Inv(n) && StartsRefresh(n, r) && Benign(n, Unauthorized(r))
    ensures
      var n' := RefreshAccessToken(n, n.calls[r].tab, r);
      PostedOnce(n') && JobsInStep(n') && TokensGenuine(n')
  {
    PostAdds(n, r);
    var n' := RefreshAccessToken(n, n.calls[r].tab, r);
    assert forall j :: 0 <= j < |n.jobs| ==> n'.jobs[j] == n.jobs[j] && n'.posted[j] == n.posted[j];
  }

  lemma PostKeeps(n: Net, r: RequestId)
    requires Inv(n) && StartsRefresh(n, r) && Benign(n, Unauthorized(r))
    ensures Inv(RefreshAccessToken(n, n.calls[r].tab, r))
  {
    PostAdds(n, r);
    PostKeepsJobs(n, r);
  }

  lemma UnauthorizedKeeps(n: Net, r: RequestId)
    requires Inv(n) && r in n.calls && n.calls[r].phase == Sent(false) && n.calls[r].tab < |n.tabs|
    requires Benign(n, Unauthorized(r))
    ensures Inv(RefreshAccessToken(n, n.calls[r].tab, r))
  {
    if StartsRefresh(n, r) {
      PostKeeps(n, r);
    } else {
      SameTokens(n, RefreshAccessToken(n, n.calls[r].tab, r));
    }
  }

  /** Only one POST of a token is not refused. */
  lemma OnePresents(n: Net, i: JobId, j: JobId)
    requires PostedOnce(n) && i < |n.jobs| && j < |n.jobs| && n.posted[i].sessionId == n.posted[j].sessionId
    requires n.jobs[i] != Answered(None) && n.jobs[j] != Answered(None)
    ensures i == j
  {
  }

  lemma Apart(n: Net, i: JobId, j: JobId)
    requires PostedOnce(n) && i < |n.jobs| && j < |n.jobs| && i != j
    requires n.jobs[i] != Answered(None) && n.jobs[j] != Answered(None)
    ensures n.posted[i].sessionId != n.posted[j].sessionId
  {
  }

  /** Reading changes one job; only its token can stop being presented, by being refused. */
  lemma ReadPresents(n: Net, j: JobId, now: int, x: SessionId)
    requires PostedOnce(n) && j < |n.jobs| && n.jobs[j].Received?
    ensures
      var n' := ReadStep(n, j, now);
      Presented(n', x) == (Presented(n, x) && (x != n.posted[j].sessionId || n'.jobs[j] != Answered(None)))
  {
    var n' := ReadStep(n, j, now);
    if Presented(n, x) && x != n.posted[j].sessionId {
      var i :| 0 <= i < |n.posted| && n.posted[i].sessionId == x && n.jobs[i] != Answered(None);
      assert n'.jobs[i] == n.jobs[i];
    }
    if Presented(n', x) {
      var i :| 0 <= i < |n.posted| && n.posted[i].sessionId == x && n'.jobs[i] != Answered(None);
      assert n.jobs[i] != Answered(None);
      if x == n.posted[j].sessionId { OnePresents(n, i, j); }
    }
    if x == n.posted[j].sessionId && n'.jobs[j] != Answered(None) {
      assert n'.posted[j].sessionId == x;
    }
  }

  lemma ReadKeepsWays(n: Net, j: JobId, now: int)
    requires Inv(n) && j < |n.jobs| && n.jobs[j].Received?
    ensures
      var n' := ReadStep(n, j, now);
      n'.srv == n.srv && OnTheWay(n') && forall p :: Awaits(n', p) ==> Awaits(n, p)
  {
    var n' := ReadStep(n, j, now);
    assert Live(n, n.posted[j].sessionId);
    assert n'.srv == n.srv;
    forall x ensures Posted(n', x) == Posted(n, x) && Live(n', x) == Live(n, x) {}
    forall p | Awaits(n', p) ensures Awaits(n, p) {}
  }

  lemma ReadKeepsStore(n: Net, j: JobId, now: int)
    requires Inv(n) && j < |n.jobs| && n.jobs[j].Received?
    ensures StoreSafe(ReadStep(n, j, now))
  {
    ReadKeepsWays(n, j, now);
    if n.store.refresh.Some? {
      ReadPresents(n, j, now, n.store.refresh.value.sessionId);
    }
  }

  lemma ReadKeeps(n: Net, j: JobId, now: int)
    requires Inv(n) && j < |n.jobs| && n.jobs[j].Received?
    ensures Inv(ReadStep(n, j, now))
  {
    ReadKeepsJobs(n, j, now);
    ReadKeepsWays(n, j, now);
    ReadKeepsStore(n, j, now);
    assert Live(n, n.posted[j].sessionId);
  }

  lemma ReadKeepsJobs(n: Net, j: JobId, now: int)
    requires Inv(n) && j < |n.jobs| && n.jobs[j].Received?
    ensures
      var n' := ReadStep(n, j, now);
      PostedOnce(n') && JobsInStep(n') && TokensGenuine(n')
  {
    var n' := ReadStep(n, j, now);
    assert Live(n, n.posted[j].sessionId);
    assert n'.srv == n.srv && n'.posted == n.posted;
    assert forall i :: 0 <= i < |n.jobs| && i != j ==> n'.jobs[i] == n.jobs[i];
  }

  lemma TurnOffKeepsJobs(n: Net, j: JobId)
    requires Inv(n) && j < |n.jobs| && n.jobs[j].Checked?
    ensures
      var n' := TurnOffStep(n, j);
      && PostedOnce(n') && JobsInStep(n') && TokensGenuine(n')
      && forall x :: Live(n', x) == (Live(n, x) && x != n.posted[j].sessionId)
  {
    var n' := TurnOffStep(n, j);
    assert forall t :: Genuine(n.srv, t) ==> Genuine(n'.srv, t);
    forall i | 0 <= i < |n'.jobs| && n'.jobs[i].Received? ensures Live(n', n'.posted[i].sessionId) {
      assert n.jobs[i].Received? && i != j;
      Apart(n, i, j);
    }
  }

  lemma TurnOffKeeps(n: Net, j: JobId)
    requires Inv(n) && j < |n.jobs| && n.jobs[j].Checked?
    ensures Inv(TurnOffStep(n, j))
  {
    var n' := TurnOffStep(n, j);
    TurnOffKeepsJobs(n, j);
    assert Posted(n, n.posted[j].sessionId) && Presented(n, n.posted[j].sessionId);
    forall x ensures Posted(n', x) == Posted(n, x) {}
    forall p | Awaits(n', p) ensures Awaits(n, p) {}
    if n.store.refresh.Some? {
      TurnOffPresents(n, j, n.store.refresh.value.sessionId);
    }
  }

  lemma TurnOffPresents(n: Net, j: JobId, x: SessionId)
    requires |n.posted| == |n.jobs| && j < |n.jobs| && n.jobs[j].Checked?
    ensures Presented(TurnOffStep(n, j), x) == Presented(n, x)
  {
    var n' := TurnOffStep(n, j);
    if Presented(n, x) {
      var i :| 0 <= i < |n.posted| && n.posted[i].sessionId == x && n.jobs[i] != Answered(None);
      assert n'.posted[i].sessionId == x && n'.jobs[i] != Answered(None);
    }
    if Presented(n', x) {
      var i :| 0 <= i < |n'.posted| && n'.posted[i].sessionId == x && n'.jobs[i] != Answered(None);
      assert n.posted[i].sessionId == x && n.jobs[i] != Answered(None);
    }
  }

  lemma InsertPresents(n: Net, j: JobId, now: int, x: SessionId)
    requires |n.posted| == |n.jobs| && j < |n.jobs| && n.jobs[j].Deactivated?
    ensures Presented(InsertStep(n, j, now), x) == Presented(n, x)
  {
    var n' := InsertStep(n, j, now);
    if Presented(n, x) {
      var i :| 0 <= i < |n.posted| && n.posted[i].sessionId == x && n.jobs[i] != Answered(None);
      assert n'.posted[i].sessionId == x && n'.jobs[i] != Answered(None);
    }
    if Presented(n', x) {
      var i :| 0 <= i < |n'.posted| && n'.posted[i].sessionId == x && n'.jobs[i] != Answered(None);
      assert n.posted[i].sessionId == x && n.jobs[i] != Answered(None);
    }
  }

  lemma InsertKeepsJobs(n: Net, j: JobId, now: int)
    requires Inv(n) && j < |n.jobs| && n.jobs[j].Deactivated?
    ensures
      var n' := InsertStep(n, j, now);
      PostedOnce(n') && JobsInStep(n') && TokensGenuine(n')
  {
    IssuedIsNew(n, n.jobs[j].userId, now, InsertStep(n, j, now));
  }

  lemma InsertKeepsWays(n: Net, j: JobId, now: int)
    requires Inv(n) && j < |n.jobs| && n.jobs[j].Deactivated?
    ensures
      var n', pair := InsertStep(n, j, now), IssuedPair(n.jobs[j].userId, n.srv.next, now);
      OnTheWay(n') && forall p :: Awaits(n', p) ==> p == pair || Awaits(n, p)
  {
    var n' := InsertStep(n, j, now);
    var pair := IssuedPair(n.jobs[j].userId, n.srv.next, now);
    IssuedIsNew(n, n.jobs[j].userId, now, n');
    assert n'.jobs == n.jobs[j := Answered(Some(pair))];
    forall p | Awaits(n', p) ensures p == pair || Awaits(n, p) {}
    forall p | p in n.mail || Awaits(n, p) ensures Sid(p) < n.srv.next {
      assert Genuine(n.srv, p.refreshToken);
    }
  }

  lemma InsertKeeps(n: Net, j: JobId, now: int)
    requires Inv(n) && j < |n.jobs| && n.jobs[j].Deactivated?
    ensures Inv(InsertStep(n, j, now))
  {
    IssuedIsNew(n, n.jobs[j].userId, now, InsertStep(n, j, now));
    InsertKeepsJobs(n, j, now);
    InsertKeepsWays(n, j, now);
    if n.store.refresh.Some? {
      InsertPresents(n, j, now, n.store.refresh.value.sessionId);
    }
  }

  /** The tab's refresh ends without its answer, and the store is cleared. */
  lemma QuietKeeps(n: Net, n': Net)
    requires Inv(n)
    requires n'.srv == n.srv && n'.posted == n.posted && n'.mail == n.mail && n'.theft == n.theft
    requires n'.jobs == n.jobs && n'.store == EMPTY_STORE && |n'.tabs| == |n.tabs|
    requires n'.tabs == n.tabs || forall t :: 0 <= t < |n.tabs| ==> n'.tabs[t].None?
    ensures Inv(n')
  {
    assert forall x :: Posted(n', x) == Posted(n, x);
    assert forall x :: Live(n', x) == Live(n, x);
    assert forall p :: Awaits(n', p) ==> Awaits(n, p);
  }

  lemma ReplyKeeps(n: Net)
    requires Inv(n) && |n.tabs| == 1 && n.tabs[0].Some? && n.jobs[n.tabs[0].value.job].Answered?
    ensures Inv(Step(n, Reply(0)))
  {
    var n' := Step(n, Reply(0));
    var j, reply := n.tabs[0].value.job, n.jobs[n.tabs[0].value.job].reply;
    assert j == |n.jobs| - 1 && n'.jobs == n.jobs[j := Delivered] && n'.tabs[0].None?;
    assert forall x :: Posted(n', x) == Posted(n, x);
    assert forall x :: Live(n', x) == Live(n, x);
    assert forall p :: !Awaits(n', p);
    if reply.Some? {
      assert Awaits(n, reply.value);
      assert !Posted(n, Sid(reply.value));
      assert !Presented(n', Sid(reply.value));
    }
  }

  lemma ReloadKeeps(n: Net)
    requires Inv(n) && |n.tabs| == 1 && Benign(n, Reload(0))
    ensures Inv(Step(n, Reload(0)))
  {
    var n' := Step(n, Reload(0));
    assert forall x :: Posted(n', x) == Posted(n, x);
    assert forall x :: Presented(n', x) == Presented(n, x);
    assert forall x :: Live(n', x) == Live(n, x);
    assert forall p :: !Awaits(n', p);
  }

  /** Sessions closed, but none whose token is on its way to the check. */
  lemma ClosedKeeps(n: Net, srv: Server)
    requires Inv(n) && srv.next == n.srv.next && srv.sessions.Keys == n.srv.sessions.Keys
    requires forall sid :: sid in srv.sessions ==>
      srv.sessions[sid] == n.srv.sessions[sid] || srv.sessions[sid] == n.srv.sessions[sid].(isActive := false)
    requires forall sid :: Live(n, sid) && Unread(n, sid) ==> srv.sessions[sid].isActive
    ensures Inv(n.(srv := srv))
  {
    var n' := n.(srv := srv);
    assert forall t :: Genuine(n.srv, t) ==> Genuine(srv, t);
    assert forall x :: Posted(n', x) == Posted(n, x);
    assert forall x :: Presented(n', x) == Presented(n, x);
    assert forall x :: Live(n', x) ==> Live(n, x);
    assert forall p :: Awaits(n', p) == Awaits(n, p);
    forall j | 0 <= j < |n.jobs| && n.jobs[j].Received? ensures Live(n', n.posted[j].sessionId) {
      assert Unread(n, n.posted[j].sessionId);
    }
  }

  lemma ServerStepKeeps(n: Net, e: Event)
    requires Inv(n) && (e.Read? || e.TurnOff? || e.Insert?)
    ensures Inv(Step(n, e))
  {
    match e
    case Read(j, now) => if j < |n.jobs| && n.jobs[j].Received? { ReadKeeps(n, j, now); }
    case TurnOff(j) => if j < |n.jobs| && n.jobs[j].Checked? { TurnOffKeeps(n, j); }
    case Insert(j, now) => if j < |n.jobs| && n.jobs[j].Deactivated? { InsertKeeps(n, j, now); }
  }

  lemma CallStepKeeps(n: Net, e: Event)
    requires Inv(n) && Benign(n, e) && (e.Fire? || e.Succeeds? || e.Unauthorized?)
    ensures Inv(Step(n, e))
  {
    if e.Unauthorized? && e.refused in n.calls && n.calls[e.refused].phase == Sent(false) &&
        n.calls[e.refused].tab < |n.tabs| {
      UnauthorizedKeeps(n, e.refused);
    } else {
      SameTokens(n, Step(n, e));
    }
  }

  lemma SettlingKeeps(n: Net, e: Event)
    requires Inv(n) && (e.Reply? || e.Drop? || e.ClearTokens?)
    ensures Inv(Step(n, e))
  {
    if Step(n, e) == n {
    } else if e.Reply? {
      ReplyKeeps(n);
    } else {
      QuietKeeps(n, Step(n, e));
    }
  }

  lemma ClosingKeeps(n: Net, e: Event)
    requires Inv(n) && Benign(n, e) && (e.ServerLogout? || e.Revoke?)
    ensures Inv(Step(n, e))
  {
    ClosedKeeps(n, Step(n, e).srv);
  }

  lemma StepKeeps(n: Net, e: Event)
    requires Inv(n) && Benign(n, e)
    ensures Inv(Step(n, e))
  {
    match e
    case ServerLogin(user, now) => LoginKeeps(n, user, now);
    case LoginReply(pair) => LoginReplyKeeps(n, pair);
    case Fire(_, _) => CallStepKeeps(n, e);
    case Succeeds(_) => CallStepKeeps(n, e);
    case Unauthorized(_) => CallStepKeeps(n, e);
    case Read(_, _) => ServerStepKeeps(n, e);
    case TurnOff(_) => ServerStepKeeps(n, e);
    case Insert(_, _) => ServerStepKeeps(n, e);
    case Reply(_) => SettlingKeeps(n, e);
    case Drop(_) => SettlingKeeps(n, e);
    case ClearTokens => SettlingKeeps(n, e);
    case ServerLogout(_) => ClosingKeeps(n, e);
    case Revoke(_) => ClosingKeeps(n, e);
    case Reload(tab) => PageKeeps(n, tab);
  }

  lemma PageKeeps(n: Net, tab: TabId)
    requires Inv(n) && Benign(n, Reload(tab))
    ensures Inv(Step(n, Reload(tab)))
  {
    if tab < |n.tabs| { ReloadKeeps(n); }
  }

  lemma {:induction false} RunKeeps(n: Net, events: seq<Event>)
    requires Inv(n) && Calm(n, events)
    ensures Inv(Run(n, events))
    decreases |events|
  {
    if events != [] {
      StepKeeps(n, events[0]);
      RunKeeps(Step(n, events[0]), events[1..]);
    }
  }

  lemma RunPlus(n: Net, events: seq<Event>, e: Event)
    ensures Run(n, [e] + events) == Run(Step(n, e), events)
    ensures Calm(n, [e] + events) <==> Benign(n, e) && Calm(Step(n, e), events)
  {
    assert ([e] + events)[1..] == events;
  }

  lemma {:induction false} RunAppend(n: Net, first: seq<Event>, second: seq<Event>)
    ensures Run(n, first + second) == Run(Run(n, first), second)
    ensures Calm(n, first + second) <==> Calm(n, first) && Calm(Run(n, first), second)
    decreases |first|
  {
    if first == [] {
      assert first + second == second;
    } else {
      assert (first + second)[1..] == first[1..] + second;
      RunAppend(Step(n, first[0]), first[1..], second);
    }
  }

  /** Neither closes a session, nor loads a page again, nor is a 401. */
  predicate Ordinary(e: Event) {
    !e.ServerLogout? && !e.Revoke? && !e.Reload? && !e.Unauthorized?
  }

  lemma {:induction false} OrdinaryIsCalm(n: Net, events: seq<Event>)
    requires forall i :: 0 <= i < |events| ==> Ordinary(events[i])
    ensures Calm(n, events)
    decreases |events|
  {
    if events != [] {
      assert Ordinary(events[0]);
      OrdinaryIsCalm(Step(n, events[0]), events[1..]);
    }
  }

  // ---------------------------------------------------------------------------
  // And every event that is not benign does harm
  // ---------------------------------------------------------------------------

  ghost function Beyond(s: set<nat>): (x: nat)
    ensures forall y :: y in s ==> y < x
  {
    if s == {} then 0
    else
      var y :| y in s;
      var rest := Beyond(s - {y});
      assert forall z :: z in s ==> z == y || z in s - {y};
      if y < rest then rest else y + 1
  }

  /** A genuine token is accepted or taken for stolen, by whether its session is active. */
  lemma GenuineVerdict(srv: Server, token: Jwt)
    requires Genuine(srv, token)
    ensures
      var user := token.sub;
      Examine(srv, token, token.exp - 1) == if srv.sessions[token.sessionId].isActive then Rotates(user)
        else Stolen(user)
  {
  }

  /** The stored token was presented, and its session has ended: posted again, it is taken for stolen. */
  lemma IdleIsTaken(n: Net)
    requires |n.tabs| == 1 && |n.posted| == |n.jobs| && n.store.refresh.Some? && n.tabs[0].None?
    requires Genuine(n.srv, n.store.refresh.value) && !Live(n, n.store.refresh.value.sessionId)
    requires Presented(n, n.store.refresh.value.sessionId)
    ensures exists more :: Calm(n, more) && Run(n, more).theft
  {
    var token, r, k := n.store.refresh.value, Beyond(n.calls.Keys), |n.jobs|;
    var e1, e2, e3 := Fire(0, r), Unauthorized(r), Read(k, token.exp - 1);
    var n1 := Step(n, e1);
    var n2 := Step(n1, e2);
    StoredGoesOut(n, 0, r);
    assert n2.jobs[k] == Received && n2.posted[k] == token && n2.srv == n.srv;
    assert Presented(n1, token.sessionId);
    GenuineVerdict(n.srv, token);
    assert Step(n2, e3).theft;
    RunPlus(n2, [], e3);
    RunPlus(n1, [e3], e2);
    RunPlus(n, [e2, e3], e1);
    assert [e3] + [] == [e3] && [e2] + [e3] == [e2, e3] && [e1] + [e2, e3] == [e1, e2, e3];
    assert Run(n, [e1, e2, e3]) == Step(n2, e3);
    assert Calm(n, [e1, e2, e3]);
  }

  /** A session closed while its token is on its way to the check. */
  lemma ClosedIsTaken(n: Net, srv: Server, sid: SessionId)
    requires Inv(n) && Unread(n, sid) && Live(n, sid)
    requires srv.sessions.Keys == n.srv.sessions.Keys && !srv.sessions[sid].isActive
    requires forall x :: x in srv.sessions ==>
      srv.sessions[x].(isActive := true) == n.srv.sessions[x].(isActive := true)
    ensures exists more :: Calm(n.(srv := srv), more) && Run(n.(srv := srv), more).theft
  {
    var j :| 0 <= j < |n.jobs| && n.jobs[j].Received? && n.posted[j].sessionId == sid;
    assert Genuine(n.srv, n.posted[j]) && Genuine(srv, n.posted[j]);
    UnreadIsTaken(n.(srv := srv), j);
  }

  /** A refresh begun with the token of a session that has ended. */
  lemma LateRefreshIsTaken(n: Net, r: RequestId)
    requires Inv(n) && StartsRefresh(n, r) && !Live(n, n.store.refresh.value.sessionId)
    ensures
      var out := Step(n, Unauthorized(r));
      exists more :: Calm(out, more) && Run(out, more).theft
  {
    var out := Step(n, Unauthorized(r));
    assert out.jobs == n.jobs + [Received] && out.posted == n.posted + [n.store.refresh.value] && out.srv == n.srv;
    assert Genuine(n.srv, n.store.refresh.value);
    UnreadIsTaken(out, |n.jobs|);
  }

  lemma UnreadIsTaken(n: Net, j: JobId)
    requires j < |n.jobs| && j < |n.posted| && n.jobs[j].Received?
    requires Genuine(n.srv, n.posted[j]) && !Live(n, n.posted[j].sessionId)
    ensures exists more :: Calm(n, more) && Run(n, more).theft
  {
    var e := Read(j, n.posted[j].exp - 1);
    GenuineVerdict(n.srv, n.posted[j]);
    RunPlus(n, [], e);
    assert [e] + [] == [e];
    assert Calm(n, [e]) && Run(n, [e]).theft;
  }

  /** The page loaded again with its token in a refresh: the token goes out a second time. */
  lemma ReloadIsTaken(n: Net)
    requires Inv(n) && |n.tabs| == 1 && n.store.refresh.Some? && Presented(n, n.store.refresh.value.sessionId)
    ensures
      var again := Step(n, Reload(0));
      exists more :: Calm(again, more) && Run(again, more).theft
  {
    var token, j := n.store.refresh.value, |n.jobs| - 1;
    var idle := Step(n, Reload(0));
    assert n.posted[j] == token;
    GenuineVerdict(n.srv, token);
    var e1, e2 := Read(j, token.exp - 1), TurnOff(j);
    var n1 := Step(idle, e1);
    var n2 := Step(n1, e2);
    assert n1.srv == n.srv && (n1.jobs[j].Checked? || !Live(n, token.sessionId));
    assert !Live(n2, token.sessionId) && n2.tabs == idle.tabs && n2.store == n.store;
    assert Genuine(n2.srv, token);
    assert n2.posted[j] == token && n2.jobs[j] != Answered(None);
    IdleIsTaken(n2);
    var more :| Calm(n2, more) && Run(n2, more).theft;
    RunPlus(n1, more, e2);
    RunPlus(idle, [e2] + more, e1);
    assert Calm(idle, [e1] + ([e2] + more));
  }

  lemma HarmIsDone(n: Net, e: Event)
    requires Inv(n) && |n.tabs| == 1 && !Benign(n, e)
    ensures exists more :: Calm(Step(n, e), more) && Run(Step(n, e), more).theft
  {
    match e
    case ServerLogout(sid) => ClosedIsTaken(n, Step(n, e).srv, sid);
    case Revoke(user) =>
      var sid :| Live(n, sid) && Unread(n, sid) && n.srv.sessions[sid].userId == user;
      ClosedIsTaken(n, Step(n, e).srv, sid);
    case Unauthorized(r) => LateRefreshIsTaken(n, r);
    case Reload(_) => ReloadIsTaken(n);
  }

  lemma {:induction false} TabsStay(n: Net, events: seq<Event>)
    ensures |Run(n, events).tabs| == |n.tabs|
    decreases |events|
  {
    if events != [] {
      TabsStay(Step(n, events[0]), events[1..]);
    }
  }

  lemma SafeIffBenign(n: Net, e: Event)
    requires Inv(n) && |n.tabs| == 1
    ensures Benign(n, e) <==> forall more :: Calm(Step(n, e), more) ==> !Run(Step(n, e), more).theft
  {
    if Benign(n, e) {
      StepKeeps(n, e);
      forall more | Calm(Step(n, e), more) ensures !Run(Step(n, e), more).theft {
        RunKeeps(Step(n, e), more);
      }
    } else {
      HarmIsDone(n, e);
    }
  }

  /**
   * With one tab, after any calm run and one more event of any kind, the theft branch stays
   * out of reach of calm runs exactly when that event was benign: none of the three overlaps
   * with a refresh.
   */
  lemma SafeIffNothingBreaksIn(events: seq<Event>, e: Event)
    requires Calm(Start(1), events)
    ensures
      var n := Run(Start(1), events);
      Benign(n, e) <==> forall more :: Calm(Step(n, e), more) ==> !Run(Step(n, e), more).theft
  {
    RunKeeps(Start(1), events);
    TabsStay(Start(1), events);
    SafeIffBenign(Run(Start(1), events), e);
  }

  const PAIR := IssuedPair(0, 0, 0)

  /** A login, and a request out from each of two tabs. */
  const TWO_TABS_AT_WORK := [ServerLogin(0, 0), LoginReply(PAIR), Fire(0, 0), Fire(1, 1)]

  const TWO_401S := [Unauthorized(0), Unauthorized(1)]

  /** The server rotates for one before it reads for the other. */
  const TWO_REFRESHES := [Read(0, 0), TurnOff(0), Read(1, 0)]

  function AtWork(tabs: nat): Net {
    Net(Issue(Server(map[], 0), 0, 0).0, [], [], {}, Stored(PAIR), seq(tabs, _ => None),
        map[0 := ApiCall(0, Sent(false), 1), 1 := ApiCall(1, Sent(false), 1)], false)
  }

  lemma ReachesAtWork(tabs: nat)
    requires tabs >= 2
    ensures Run(Start(tabs), TWO_TABS_AT_WORK) == AtWork(tabs)
  {
    var e1, e2, e3, e4 := ServerLogin(0, 0), LoginReply(PAIR), Fire(0, 0), Fire(1, 1);
    var n1 := Step(Start(tabs), e1);
    var n2 := Step(n1, e2);
    var n3 := Step(n2, e3);
    RunPlus(Start(tabs), [e2, e3, e4], e1);
    RunPlus(n1, [e3, e4], e2);
    RunPlus(n2, [e4], e3);
    RunPlus(n3, [], e4);
    assert TWO_TABS_AT_WORK == [e1] + [e2, e3, e4] && [e2] + [e3, e4] == [e2, e3, e4] && [e3] + [e4] == [e3, e4];
  }

  lemma BothPost(tabs: nat)
    requires tabs >= 2
    ensures
      var n := Run(AtWork(tabs), TWO_401S);
      n.jobs == [Received, Received] && n.posted == [PAIR.refreshToken, PAIR.refreshToken] && n.srv == AtWork(tabs).srv
    ensures Calm(AtWork(tabs), TWO_401S)
  {
    var e1, e2 := Unauthorized(0), Unauthorized(1);
    var n1 := Step(AtWork(tabs), e1);
    assert n1.jobs == [Received] && n1.tabs[1].None?;
    assert Live(AtWork(tabs), 0) && Live(n1, 0);
    var n2 := Step(n1, e2);
    RunPlus(AtWork(tabs), [e2], e1);
    RunPlus(n1, [], e2);
    assert TWO_401S == [e1] + [e2];
  }

  /** A valid token in two POSTs: one rotates it, and the check of the other takes it for stolen. */
  lemma SecondPresentationIsTheft(n: Net, i: JobId, j: JobId, now: int)
    requires i != j && i < |n.jobs| && j < |n.jobs| && |n.posted| == |n.jobs|
    requires n.jobs[i].Received? && n.jobs[j].Received? && n.posted[i] == n.posted[j]
    requires Examine(n.srv, n.posted[i], now).Rotates?
    ensures Run(n, [Read(i, now), TurnOff(i), Read(j, now)]).theft
  {
    var e1, e2, e3 := Read(i, now), TurnOff(i), Read(j, now);
    var n1 := Step(n, e1);
    var n2 := Step(n1, e2);
    assert n2.posted == n.posted && n2.jobs[j].Received?;
    assert Examine(n2.srv, n.posted[j], now).Stolen?;
    RunPlus(n, [e2, e3], e1);
    RunPlus(n1, [e3], e2);
    RunPlus(n2, [], e3);
    assert [e1] + [e2, e3] == [e1, e2, e3] && [e2] + [e3] == [e2, e3];
  }

  lemma TwoTabsCollide(tabs: nat)
    requires tabs >= 2
    ensures
      var events := TWO_TABS_AT_WORK + (TWO_401S + TWO_REFRESHES);
      Calm(Start(tabs), events) && Run(Start(tabs), events).theft
  {
    RunAppend(Start(tabs), TWO_TABS_AT_WORK, TWO_401S + TWO_REFRESHES);
    ReachesAtWork(tabs);
    RunAppend(AtWork(tabs), TWO_401S, TWO_REFRESHES);
    BothPost(tabs);
    SecondPresentationIsTheft(Run(AtWork(tabs), TWO_401S), 0, 1, 0);
    OrdinaryIsCalm(Start(tabs), TWO_TABS_AT_WORK);
    OrdinaryIsCalm(Run(AtWork(tabs), TWO_401S), TWO_REFRESHES);
  }

  /**
   * Single-flight is per tab. Over all calm runs - any number of concurrent requests, late
   * 401s, logins, lost replies, logouts, revocations and page loads that overlap no refresh,
   * and all that follows them, a server slow between its statements - the theft branch stays
   * unreachable exactly when at most one tab shares the store.
   */
  lemma NeverTakenForTheftIffOneTab(tabs: nat)
    ensures (forall events :: Calm(Start(tabs), events) ==> !Run(Start(tabs), events).theft) <==> tabs <= 1
  {
    if tabs <= 1 {
      forall events | Calm(Start(tabs), events) ensures !Run(Start(tabs), events).theft {
        RunKeeps(Start(tabs), events);
      }
    } else {
      TwoTabsCollide(tabs);
    }
  }

  /** With one tab, over calm runs, a refresh token goes out again only after it was refused. */
  lemma PresentedOnce(events: seq<Event>)
    requires Calm(Start(1), events)
    ensures PostedOnce(Run(Start(1), events))
  {
    RunKeeps(Start(1), events);
  }

  /** A login, a request, and its 401: the refresh is out. */
  const REFRESHING := [ServerLogin(0, 0), LoginReply(PAIR), Fire(0, 0), Unauthorized(0)]

  function Refreshing(): Net {
    var srv := Issue(Server(map[], 0), 0, 0).0;
    Net(srv, [Received], [PAIR.refreshToken], {}, Stored(PAIR), [Some(Flight(0, {0}))],
      map[0 := ApiCall(0, Waiting, 1)], false)
  }

  lemma ReachesRefreshing()
    ensures Run(Start(1), REFRESHING) == Refreshing()
  {
    var e1, e2, e3, e4 := ServerLogin(0, 0), LoginReply(PAIR), Fire(0, 0), Unauthorized(0);
    var n1 := Step(Start(1), e1);
    var n2 := Step(n1, e2);
    var n3 := Step(n2, e3);
    assert Step(n3, e4) == Refreshing();
    RunPlus(Start(1), [e2, e3, e4], e1);
    RunPlus(n1, [e3, e4], e2);
    RunPlus(n2, [e4], e3);
    RunPlus(n3, [], e4);
    assert REFRESHING == [e1] + [e2, e3, e4] && [e2] + [e3, e4] == [e2, e3, e4] && [e3] + [e4] == [e3, e4];
    assert [e4] + [] == [e4];
  }

  /** A login, a request, and the server's half of a logout; the 401 of the request is still to come. */
  const LOGGING_OUT := [ServerLogin(0, 0), LoginReply(PAIR), Fire(0, 0), ServerLogout(0)]

  function LoggingOut(): Net {
    var srv := Issue(Server(map[], 0), 0, 0).0;
    Net(Deactivate(srv, 0), [], [], {}, Stored(PAIR), [None], map[0 := ApiCall(0, Sent(false), 1)], false)
  }

  lemma ReachesLoggingOut()
    ensures Run(Start(1), LOGGING_OUT) == LoggingOut() && Calm(Start(1), LOGGING_OUT)
  {
    var e1, e2, e3, e4 := ServerLogin(0, 0), LoginReply(PAIR), Fire(0, 0), ServerLogout(0);
    var n1 := Step(Start(1), e1);
    var n2 := Step(n1, e2);
    var n3 := Step(n2, e3);
    assert n3.jobs == [] && Step(n3, e4) == LoggingOut();
    RunPlus(Start(1), [e2, e3, e4], e1);
    RunPlus(n1, [e3, e4], e2);
    RunPlus(n2, [e4], e3);
    RunPlus(n3, [], e4);
    assert LOGGING_OUT == [e1] + [e2, e3, e4] && [e2] + [e3, e4] == [e2, e3, e4] && [e3] + [e4] == [e3, e4];
    assert [e4] + [] == [e4];
  }

  lemma RefreshingIsCalm()
    ensures Calm(Start(1), REFRESHING)
  {
    var before := [ServerLogin(0, 0), LoginReply(PAIR), Fire(0, 0)];
    RunThree(Start(1), before[0], before[1], before[2]);
    var n := Run(Start(1), before);
    assert n.store == Stored(PAIR) && Live(n, 0);
    OrdinaryIsCalm(Start(1), before);
    RunPlus(n, [], Unauthorized(0));
    assert [Unauthorized(0)] + [] == [Unauthorized(0)];
    RunAppend(Start(1), before, [Unauthorized(0)]);
    assert REFRESHING == before + [Unauthorized(0)];
  }

  /**
   * None of the conditions is idle: with a refresh out, a page load, a logout and a revocation
   * overlap it; and between the halves of a logout, so does a late 401 that begins one.
   */
  lemma EachHarmOccurs()
    ensures Calm(Start(1), REFRESHING)
    ensures
      var n := Run(Start(1), REFRESHING);
      !Benign(n, Reload(0)) && !Benign(n, ServerLogout(0)) && !Benign(n, Revoke(0))
    ensures Calm(Start(1), LOGGING_OUT) && !Benign(Run(Start(1), LOGGING_OUT), Unauthorized(0))
  {
    ReachesRefreshing();
    RefreshingIsCalm();
    ReachesLoggingOut();
    var n := Refreshing();
    assert n.posted[0].sessionId == 0 && n.jobs[0] != Answered(None);
    assert Live(n, 0) && Unread(n, 0) && Presented(n, 0);
    assert StartsRefresh(LoggingOut(), 0) && !Live(LoggingOut(), 0) && !Presented(LoggingOut(), 0);
  }

  // ---------------------------------------------------------------------------
  // Logouts that overlap no refresh
  // ---------------------------------------------------------------------------

  /** No refresh begins, and no session ends while its token is on its way to the check. */
  ghost predicate Aside(n: Net, events: seq<Event>)
    decreases |events|
  {
    events == [] ||
    (&& !(events[0].Unauthorized? && StartsRefresh(n, events[0].refused))
     && (events[0].ServerLogout? || events[0].Revoke? ==> Benign(n, events[0]))
     && Aside(Step(n, events[0]), events[1..]))
  }

  lemma UnreadIsPresented(n: Net, sid: SessionId)
    ensures Unread(n, sid) ==> Presented(n, sid)
  {
    if Unread(n, sid) {
      var j :| 0 <= j < |n.jobs| && j < |n.posted| && n.jobs[j].Received? && n.posted[j].sessionId == sid;
      assert n.jobs[j] != Answered(None);
    }
  }

  lemma IdleIsUnpresented(n: Net)
    requires Inv(n) && |n.tabs| == 1 && n.tabs[0].None? && n.store.refresh.Some?
    ensures !Presented(n, n.store.refresh.value.sessionId) && !Unread(n, n.store.refresh.value.sessionId)
  {
    UnreadIsPresented(n, n.store.refresh.value.sessionId);
  }

  lemma StaysIdle(n: Net, e: Event)
    requires |n.tabs| == 1 && n.tabs[0].None? && !(e.Unauthorized? && StartsRefresh(n, e.refused))
    ensures |Step(n, e).tabs| == 1 && Step(n, e).tabs[0].None?
  {
  }

  lemma {:induction false} AsideIsCalm(n: Net, events: seq<Event>)
    requires Inv(n) && |n.tabs| == 1 && n.tabs[0].None? && Aside(n, events)
    ensures Calm(n, events) && Inv(Run(n, events))
    decreases |events|
  {
    if events != [] {
      var e := events[0];
      if n.store.refresh.Some? { IdleIsUnpresented(n); }
      assert Benign(n, e);
      StepKeeps(n, e);
      StaysIdle(n, e);
      AsideIsCalm(Step(n, e), events[1..]);
    }
  }

  /** No step makes an ended session live again. */
  lemma StepStaysClosed(n: Net, e: Event, sid: SessionId)
    requires sid < n.srv.next && !Live(n, sid)
    ensures sid < Step(n, e).srv.next && !Live(Step(n, e), sid)
  {
  }

  lemma {:induction false} StaysClosed(n: Net, events: seq<Event>, sid: SessionId)
    requires sid < n.srv.next && !Live(n, sid)
    ensures !Live(Run(n, events), sid)
    decreases |events|
  {
    if events != [] {
      StepStaysClosed(n, events[0], sid);
      StaysClosed(Step(n, events[0]), events[1..], sid);
    }
  }

  lemma LogoutKeeps(n: Net, between: seq<Event>)
    requires Inv(n) && |n.tabs| == 1 && n.tabs[0].None? && n.store.refresh.Some?
    requires Aside(Step(n, ServerLogout(n.store.refresh.value.sessionId)), between)
    ensures
      var sid := n.store.refresh.value.sessionId;
      var logout := [ServerLogout(sid)] + (between + [ClearTokens]);
      Calm(n, logout) && Inv(Run(n, logout)) && Run(n, logout).store == EMPTY_STORE && !Live(Run(n, logout), sid)
  {
    var sid := n.store.refresh.value.sessionId;
    IdleIsUnpresented(n);
    var closed := Step(n, ServerLogout(sid));
    StepKeeps(n, ServerLogout(sid));
    AsideIsCalm(closed, between);
    StaysClosed(closed, between, sid);
    var last := Run(closed, between);
    StepKeeps(last, ClearTokens);
    RunPlus(last, [], ClearTokens);
    assert [ClearTokens] + [] == [ClearTokens];
    RunAppend(closed, between, [ClearTokens]);
    RunPlus(n, between + [ClearTokens], ServerLogout(sid));
  }

  /**
   * After any calm run, a logout with no refresh in flight, and none begun between its halves,
   * keeps the run calm, whatever else comes in between: requests, logins, page loads, other
   * sessions' logouts. The protocol goes on from there as from any calm run.
   */
  lemma LogoutIsCalm(events: seq<Event>, between: seq<Event>)
    requires Calm(Start(1), events)
    requires
      var n := Run(Start(1), events);
      && |n.tabs| == 1 && n.tabs[0].None? && n.store.refresh.Some?
      && Aside(Step(n, ServerLogout(n.store.refresh.value.sessionId)), between)
    ensures
      var sid := Run(Start(1), events).store.refresh.value.sessionId;
      var whole := events + ([ServerLogout(sid)] + (between + [ClearTokens]));
      && Calm(Start(1), whole) && Inv(Run(Start(1), whole))
      && Run(Start(1), whole).store == EMPTY_STORE && !Live(Run(Start(1), whole), sid)
  {
    var n := Run(Start(1), events);
    var sid := n.store.refresh.value.sessionId;
    RunKeeps(Start(1), events);
    LogoutKeeps(n, between);
    RunAppend(Start(1), events, [ServerLogout(sid)] + (between + [ClearTokens]));
  }

  /**
   * A session closed from elsewhere while a tab still holds its token is, to the server, a
   * stolen token: whenever the stored token would be accepted, revoking its user first turns
   * the tab's next refresh into the theft alarm.
   */
  lemma RevokedTokenLooksStolen(n: Net, tab: TabId, r: RequestId, now: int)
    requires tab < |n.tabs| && n.tabs[tab].None? && r !in n.calls && |n.posted| == |n.jobs|
    requires n.store.refresh.Some? && Examine(n.srv, n.store.refresh.value, now).Rotates?
    ensures
      var user := n.store.refresh.value.sub;
      Run(n, [Revoke(user), Fire(tab, r), Unauthorized(r), Read(|n.jobs|, now)]).theft
  {
    var token, k := n.store.refresh.value, |n.jobs|;
    var n1 := Step(n, Revoke(token.sub));
    var rest := [Fire(tab, r), Unauthorized(r), Read(k, now)];
    RunPlus(n, rest, Revoke(token.sub));
    assert [Revoke(token.sub)] + rest == [Revoke(token.sub), Fire(tab, r), Unauthorized(r), Read(k, now)];
    NextRefreshIsTheft(n1, tab, r, now);
  }

  /** An idle tab whose stored token the server takes for stolen: its next refresh raises the alarm. */
  lemma NextRefreshIsTheft(n: Net, tab: TabId, r: RequestId, now: int)
    requires tab < |n.tabs| && n.tabs[tab].None? && r !in n.calls && |n.posted| == |n.jobs|
    requires n.store.refresh.Some? && Examine(n.srv, n.store.refresh.value, now).Stolen?
    ensures Run(n, [Fire(tab, r), Unauthorized(r), Read(|n.jobs|, now)]).theft
  {
    RunThree(n, Fire(tab, r), Unauthorized(r), Read(|n.jobs|, now));
    StoredGoesOut(n, tab, r);
  }

  /** A request and its 401: an idle tab posts the stored token. */
  lemma StoredGoesOut(n: Net, tab: TabId, r: RequestId)
    requires tab < |n.tabs| && n.tabs[tab].None? && r !in n.calls && n.store.refresh.Some?
    ensures
      var out := Step(Step(n, Fire(tab, r)), Unauthorized(r));
      && out.srv == n.srv && out.theft == n.theft
      && out.jobs == n.jobs + [Received] && out.posted == n.posted + [n.store.refresh.value]
  {
  }

  // ---------------------------------------------------------------------------
  // Coalescing and the single retry, for any number of tabs
  // ---------------------------------------------------------------------------

  /** Nobody waits on a promise that will not wake them, and nobody fetches a third time. */
  ghost predicate CallsInv(n: Net) {
    && (forall r :: r in n.calls ==>
          && n.calls[r].tab < |n.tabs|
          && match n.calls[r].phase
             case Sent(retry) => n.calls[r].fetches == if retry then 2 else 1
             case Waiting =>
               && n.calls[r].fetches == 1
               && n.tabs[n.calls[r].tab].Some? && r in n.tabs[n.calls[r].tab].value.waiters
             case Finished(_) => n.calls[r].fetches <= 2)
    && (forall t :: 0 <= t < |n.tabs| && n.tabs[t].Some? ==>
          && n.tabs[t].value.job < |n.jobs|
          && forall r :: r in n.tabs[t].value.waiters ==>
            r in n.calls && n.calls[r].phase.Waiting? && n.calls[r].tab == t)
  }

  lemma RefreshKeepsCalls(n: Net, r: RequestId)
    requires CallsInv(n) && r in n.calls && n.calls[r].phase == Sent(false)
    ensures CallsInv(RefreshAccessToken(n, n.calls[r].tab, r))
  {
  }

  lemma SettleKeepsCalls(n: Net, tab: TabId, reply: Option<TokenPair>)
    requires CallsInv(n) && tab < |n.tabs| && n.tabs[tab].Some?
    ensures CallsInv(Settle(n, tab, reply))
  {
    var n' := Settle(n, tab, reply);
    forall r | r in n'.calls && n'.calls[r].phase.Waiting?
      ensures n'.calls[r].tab != tab && n'.calls[r] == n.calls[r]
    {
    }
  }

  lemma SameCalls(n: Net, n': Net)
    requires CallsInv(n)
    requires n'.calls == n.calls && n'.tabs == n.tabs && |n'.jobs| >= |n.jobs|
    ensures CallsInv(n')
  {
  }

  /** A call that goes from Sent to another state but Waiting touches no promise. */
  lemma OneCallChanges(n: Net, r: RequestId, c: ApiCall)
    requires CallsInv(n)
    requires r in n.calls ==> n.calls[r].phase.Sent? && c.tab == n.calls[r].tab
    requires c.tab < |n.tabs| && (c == ApiCall(c.tab, Sent(false), 1) || (c.phase.Finished? && c.fetches <= 2))
    ensures CallsInv(n.(calls := n.calls[r := c]))
  {
  }

  lemma SentStepKeepsCalls(n: Net, e: Event)
    requires CallsInv(n) && (e.Fire? || e.Succeeds? || e.Unauthorized?)
    ensures CallsInv(Step(n, e))
  {
    match e
    case Fire(tab, r) =>
      if tab < |n.tabs| && r !in n.calls { OneCallChanges(n, r, ApiCall(tab, Sent(false), 1)); }
    case Succeeds(r) =>
      if r in n.calls && n.calls[r].phase.Sent? { OneCallChanges(n, r, n.calls[r].(phase := Finished(true))); }
    case Unauthorized(r) =>
      if r in n.calls && n.calls[r].phase.Sent? {
        if n.calls[r].phase.skipAuthRetry {
          OneCallChanges(n, r, n.calls[r].(phase := Finished(false)));
        } else {
          RefreshKeepsCalls(n, r);
        }
      }
  }

  lemma EndStepKeepsCalls(n: Net, e: Event)
    requires CallsInv(n) && (e.Reply? || e.Drop?)
    ensures CallsInv(Step(n, e))
  {
    if e.Reply? {
      var tab := e.replyTab;
      if tab < |n.tabs| && n.tabs[tab].Some? && n.jobs[n.tabs[tab].value.job].Answered? {
        SettleKeepsCalls(n, tab, n.jobs[n.tabs[tab].value.job].reply);
      }
    } else if e.dropTab < |n.tabs| && n.tabs[e.dropTab].Some? {
      SettleKeepsCalls(n, e.dropTab, None);
    }
  }

  /** A page loaded again: the tab's refresh and requests are forgotten, and all the rest is as it was. */
  lemma ReloadForgets(n: Net, tab: TabId)
    requires tab < |n.tabs|
    ensures
      var n' := Step(n, Reload(tab));
      && n' == n.(tabs := n'.tabs, calls := n'.calls) && |n'.tabs| == |n.tabs|
      && (forall t :: 0 <= t < |n.tabs| ==> n'.tabs[t] == if t == tab then None else n.tabs[t])
      && (forall r :: r in n'.calls <==> r in n.calls && n.calls[r].tab != tab)
      && (forall r :: r in n'.calls ==> n'.calls[r] == n.calls[r])
  {
  }

  lemma ReloadKeepsCalls(n: Net, tab: TabId)
    requires CallsInv(n)
    ensures CallsInv(Step(n, Reload(tab)))
  {
  }

  lemma StepKeepsCalls(n: Net, e: Event)
    requires CallsInv(n)
    ensures CallsInv(Step(n, e))
  {
    match e
    case Fire(_, _) => SentStepKeepsCalls(n, e);
    case Succeeds(_) => SentStepKeepsCalls(n, e);
    case Unauthorized(_) => SentStepKeepsCalls(n, e);
    case Reply(_) => EndStepKeepsCalls(n, e);
    case Drop(_) => EndStepKeepsCalls(n, e);
    case Reload(tab) => ReloadKeepsCalls(n, tab);
    case _ => SameCalls(n, Step(n, e));
  }

  /**
   * Over any run, with any number of tabs and revocations: a request is fetched at most
   * twice, and one that waits is among the waiters of its tab's refresh, so it is resumed
   * when that settles.
   */
  lemma {:induction false} AtMostOneRetry(n: Net, events: seq<Event>)
    requires CallsInv(n)
    ensures CallsInv(Run(n, events))
    decreases |events|
  {
    if events != [] {
      StepKeepsCalls(n, events[0]);
      AtMostOneRetry(Step(n, events[0]), events[1..]);
    }
  }

  /** The tab's refresh is answered, or lost: what becomes of every request of every tab. */
  ghost predicate Resumed(n: Net, n': Net, tab: TabId, pair: Option<TokenPair>) {
    && n'.calls.Keys == n.calls.Keys
    && (forall r :: r in n.calls && n.calls[r].phase.Waiting? && n.calls[r].tab == tab ==>
          n'.calls[r] == if pair.Some? then ApiCall(tab, Sent(true), 2) else ApiCall(tab, Finished(false), 1))
    && (forall r :: r in n.calls && !(n.calls[r].phase.Waiting? && n.calls[r].tab == tab) ==> n'.calls[r] == n.calls[r])
    && |n'.tabs| == |n.tabs| && (forall t :: 0 <= t < |n.tabs| ==> n'.tabs[t] == if t == tab then None else n.tabs[t])
    && n'.srv == n.srv && n'.posted == n.posted
    && (pair.Some? ==> n'.store.access == Some(pair.value.accessToken))
    && (pair.Some? ==> n'.store.refresh == Some(pair.value.refreshToken))
    && (pair.None? ==> n'.store.access.None? && n'.store.refresh.None?)
  }

  lemma SettleResumes(n: Net, tab: TabId, pair: Option<TokenPair>)
    requires CallsInv(n) && tab < |n.tabs| && n.tabs[tab].Some?
    ensures Resumed(n, Settle(n, tab, pair), tab, pair)
  {
    forall r | r in n.calls
      ensures n.calls[r].phase.Waiting? && n.calls[r].tab == tab <==> r in n.tabs[tab].value.waiters
    {
    }
  }

  /**
   * When the refresh of a tab is answered, each request that waits for it is fetched a second
   * time if there is a new pair, which is then stored, and fails after its one fetch if there
   * is none; when the answer is lost it fails too. Nobody else's request is touched.
   */
  lemma ReplyResumes(n: Net, tab: TabId)
    requires CallsInv(n) && tab < |n.tabs| && n.tabs[tab].Some?
    ensures
      n.jobs[n.tabs[tab].value.job].Answered? ==>
        Resumed(n, Step(n, Reply(tab)), tab, n.jobs[n.tabs[tab].value.job].reply)
    ensures !n.jobs[n.tabs[tab].value.job].Answered? ==> Step(n, Reply(tab)) == n
    ensures Resumed(n, Step(n, Drop(tab)), tab, None)
  {
    SettleResumes(n, tab, None);
    if n.jobs[n.tabs[tab].value.job].Answered? {
      SettleResumes(n, tab, n.jobs[n.tabs[tab].value.job].reply);
    }
  }

  /**
   * A first 401, whatever the other tabs do. If its tab has a refresh out, the request joins
   * it; if not, the stored token is posted and the request waits for that; with no token it
   * has failed after one fetch. Nothing else moves.
   */
  lemma FirstRefusal(n: Net, r: RequestId)
    requires CallsInv(n) && r in n.calls && n.calls[r].phase == Sent(false)
    ensures
      var n', tab := Step(n, Unauthorized(r)), n.calls[r].tab;
      && n' == n.(calls := n'.calls, tabs := n'.tabs, jobs := n'.jobs, posted := n'.posted)
      && (forall q :: q in n.calls && q != r ==> q in n'.calls && n'.calls[q] == n.calls[q])
      && n'.calls.Keys == n.calls.Keys && |n'.tabs| == |n.tabs|
      && (forall t :: 0 <= t < |n.tabs| && t != tab ==> n'.tabs[t] == n.tabs[t])
      && if n.tabs[tab].None? && n.store.refresh.None? then
           && n'.calls[r] == ApiCall(tab, Finished(false), 1)
           && n'.tabs == n.tabs && n'.jobs == n.jobs && n'.posted == n.posted
         else
           && n'.calls[r] == ApiCall(tab, Waiting, 1) && n'.tabs[tab].Some? && r in n'.tabs[tab].value.waiters
           && if n.tabs[tab].Some? then
                n'.tabs[tab].value.job == n.tabs[tab].value.job && n'.jobs == n.jobs && n'.posted == n.posted
              else
                && n'.tabs[tab].value.job == |n.jobs| && n'.jobs == n.jobs + [Received]
                && n'.posted == n.posted + [n.store.refresh.value]
  {
  }

  /** The refresh of an idle tab, from the 401 to the answer. */
  function Course(tab: TabId, r: RequestId, k: JobId, now: int): seq<Event> {
    [Fire(tab, r), Unauthorized(r), Read(k, now), TurnOff(k), Insert(k, now), Reply(tab)]
  }

  lemma RunSix(n: Net, a: Event, b: Event, c: Event, d: Event, e: Event, f: Event)
    ensures Run(n, [a, b, c, d, e, f]) == Step(Step(Step(Step(Step(Step(n, a), b), c), d), e), f)
  {
    RunAppend(n, [a, b, c], [d, e, f]);
    RunThree(n, a, b, c);
    RunThree(Run(n, [a, b, c]), d, e, f);
    assert [a, b, c] + [d, e, f] == [a, b, c, d, e, f];
  }

  /** The server's part of the course: the POST k is answered with a fresh pair. */
  lemma Rotation(n: Net, k: JobId, now: int)
    requires k < |n.jobs| && |n.posted| == |n.jobs| && n.jobs[k].Received?
    requires Examine(n.srv, n.posted[k], now).Rotates? && WellFormed(n.srv)
    ensures
      var n' := Step(Step(Step(n, Read(k, now)), TurnOff(k)), Insert(k, now));
      var user := n.posted[k].sub;
      && n'.jobs == n.jobs[k := Answered(Some(IssuedPair(user, n.srv.next, now)))]
      && n'.tabs == n.tabs && n'.calls == n.calls && n'.posted == n.posted
      && !Live(n', n.posted[k].sessionId) && Live(n', n.srv.next)
  {
    var n1 := Step(n, Read(k, now));
    var n2 := Step(n1, TurnOff(k));
    assert n1.jobs == n.jobs[k := Checked(n.posted[k].sub)];
    assert n2.jobs == n.jobs[k := Deactivated(n.posted[k].sub)];
    assert n2.jobs[k := Answered(Some(IssuedPair(n.posted[k].sub, n.srv.next, now)))] ==
        n.jobs[k := Answered(Some(IssuedPair(n.posted[k].sub, n.srv.next, now)))];
  }

  /** The 401 of a request of an idle tab: the stored token goes out, and the request waits for it. */
  lemma WaitsForItsPost(n: Net, tab: TabId, r: RequestId)
    requires CallsInv(n) && tab < |n.tabs| && n.tabs[tab].None? && r !in n.calls && n.store.refresh.Some?
    ensures
      var n' := Step(Step(n, Fire(tab, r)), Unauthorized(r));
      && CallsInv(n') && n'.srv == n.srv
      && n'.jobs == n.jobs + [Received] && n'.posted == n.posted + [n.store.refresh.value]
      && n'.tabs == n.tabs[tab := Some(Flight(|n.jobs|, {r}))] && n'.calls == n.calls[r := ApiCall(tab, Waiting, 1)]
  {
    StepKeepsCalls(n, Fire(tab, r));
    StepKeepsCalls(Step(n, Fire(tab, r)), Unauthorized(r));
  }

  lemma LoneWaiterResumes(n: Net, waiting: Net, tab: TabId, r: RequestId, k: JobId, pair: TokenPair)
    requires CallsInv(n) && tab < |n.tabs| && n.tabs[tab].None? && r !in n.calls
    requires CallsInv(waiting) && waiting.tabs == n.tabs[tab := Some(Flight(k, {r}))]
    requires waiting.calls == n.calls[r := ApiCall(tab, Waiting, 1)]
    requires k < |waiting.jobs| && waiting.jobs[k] == Answered(Some(pair))
    ensures
      var n' := Step(waiting, Reply(tab));
      && n'.calls == n.calls[r := ApiCall(tab, Sent(true), 2)] && n'.tabs == n.tabs
      && n'.store == Store(Some(pair.accessToken), Some(pair.refreshToken)) && n'.srv == waiting.srv
  {
    ReplyResumes(waiting, tab);
    var n' := Step(waiting, Reply(tab));
    forall q | q in n.calls ensures n'.calls[q] == n.calls[q] {
      assert n.calls[q].phase.Waiting? ==> n.calls[q].tab != tab;
    }
  }

  /**
   * A request whose access token has run out, end to end: its 401 makes the idle tab refresh
   * with the stored token, the server trades its session for a new one, the new pair is
   * stored, and the request is out again.
   */
  lemma RefreshedAndRetried(n: Net, tab: TabId, r: RequestId, now: int)
    requires CallsInv(n) && |n.posted| == |n.jobs| && WellFormed(n.srv)
    requires tab < |n.tabs| && n.tabs[tab].None? && r !in n.calls
    requires n.store.refresh.Some? && Examine(n.srv, n.store.refresh.value, now).Rotates?
    ensures
      var n' := Run(n, Course(tab, r, |n.jobs|, now));
      var pair := IssuedPair(n.store.refresh.value.sub, n.srv.next, now);
      && n'.calls == n.calls[r := ApiCall(tab, Sent(true), 2)] && n'.tabs == n.tabs
      && n'.store == Store(Some(pair.accessToken), Some(pair.refreshToken))
      && !Live(n', n.store.refresh.value.sessionId) && Live(n', n.srv.next)
  {
    var k := |n.jobs|;
    RunSix(n, Fire(tab, r), Unauthorized(r), Read(k, now), TurnOff(k), Insert(k, now), Reply(tab));
    var posted := Step(Step(n, Fire(tab, r)), Unauthorized(r));
    WaitsForItsPost(n, tab, r);
    Rotation(posted, k, now);
    var rotated := Step(Step(Step(posted, Read(k, now)), TurnOff(k)), Insert(k, now));
    SameCalls(posted, rotated);
    LoneWaiterResumes(n, rotated, tab, r, k, IssuedPair(n.store.refresh.value.sub, n.srv.next, now));
  }

  /**
   * And the end of every request, over any run: one that is out and is served has succeeded,
   * with two fetches exactly when it was refreshed for; one fetched again and refused once more
   * has failed, and no refresh is sent.
   */
  lemma FetchEnds(n: Net, events: seq<Event>, r: RequestId)
    requires CallsInv(n)
    requires r in Run(n, events).calls && Run(n, events).calls[r].phase.Sent?
    ensures
      var n' := Run(n, events);
      var tab, again := n'.calls[r].tab, n'.calls[r].phase.skipAuthRetry;
      && Step(n', Succeeds(r)) == n'.(calls := n'.calls[r := ApiCall(tab, Finished(true), if again then 2 else 1)])
      && (again ==> Step(n', Unauthorized(r)) == n'.(calls := n'.calls[r := ApiCall(tab, Finished(false), 2)]))
  {
    AtMostOneRetry(n, events);
  }

  function IdleTabs(n: Net): set<TabId> {
    set t | 0 <= t < |n.tabs| && n.tabs[t].None?
  }

  /** A 401 starts a refresh exactly when its tab stops being idle. */
  lemma RefusalConserves(n: Net, r: RequestId)
    ensures
      var n' := Step(n, Unauthorized(r));
      |n'.jobs| + |IdleTabs(n')| == |n.jobs| + |IdleTabs(n)|
  {
    var n' := Step(n, Unauthorized(r));
    if r in n.calls && n.calls[r].phase == Sent(false) && n.calls[r].tab < |n.tabs| {
      var tab := n.calls[r].tab;
      assert forall t :: 0 <= t < |n.tabs| && t != tab ==> n'.tabs[t] == n.tabs[t];
      if n'.tabs[tab].Some? && n.tabs[tab].None? {
        assert IdleTabs(n') == IdleTabs(n) - {tab} && tab in IdleTabs(n);
      } else {
        assert IdleTabs(n') == IdleTabs(n);
      }
    }
  }

  /** A burst of 401s sends at most one refresh per tab, and none from a tab that has one out. */
  lemma {:induction false} BurstSendsOneRefreshPerTab(n: Net, burst: seq<Event>)
    requires forall i :: 0 <= i < |burst| ==> burst[i].Unauthorized?
    ensures |Run(n, burst).jobs| <= |n.jobs| + |IdleTabs(n)|
    ensures |Run(n, burst).jobs| + |IdleTabs(Run(n, burst))| == |n.jobs| + |IdleTabs(n)|
    decreases |burst|
  {
    if burst != [] {
      RefusalConserves(n, burst[0].refused);
      BurstSendsOneRefreshPerTab(Step(n, burst[0]), burst[1..]);
    }
  }

  /** Uninterrupted, the server's three statements are one refresh of the sessions service. */
  lemma StatementsMakeARefresh(n: Net, j: JobId, now: int)
    requires j < |n.jobs| && j < |n.posted| && n.jobs[j].Received?
    ensures
      var after := Run(n, [Read(j, now), TurnOff(j), Insert(j, now)]);
      var (srv', answer) := RefreshStep(n.srv, n.posted[j], now);
      && after.srv == srv'
      && j < |after.jobs|
      && after.jobs[j] == Answered(if answer.Ok? then Some(answer.value) else None)
      && after.theft == (n.theft || answer == Err(TheftDetected))
  {
    RunThree(n, Read(j, now), TurnOff(j), Insert(j, now));
    match Examine(n.srv, n.posted[j], now)
    case Rejected =>
    case Stolen(_) =>
    case Rotates(user) =>
      var n1 := n.(jobs := n.jobs[j := Checked(user)]);
      assert Step(n, Read(j, now)) == n1;
      assert Step(n1, TurnOff(j)).jobs[j] == Deactivated(user);
  }

  lemma RunThree(n: Net, a: Event, b: Event, c: Event)
    ensures Run(n, [a, b, c]) == Step(Step(Step(n, a), b), c)
  {
    RunPlus(n, [b, c], a);
    RunPlus(Step(n, a), [c], b);
    RunPlus(Step(Step(n, a), b), [], c);
    assert [a] + [b, c] == [a, b, c] && [b] + [c] == [b, c] && [c] + [] == [c];
  }

  // ---------------------------------------------------------------------------
  // The client modules
  // ---------------------------------------------------------------------------

  const ACCESS_KEY := "gestionale_access_token"
  const REFRESH_KEY := "gestionale_refresh_token"

  /** One tab: the token store's two keys and the single-flight variable. */
  class Browser {
    var localStorage: map<string, Jwt>
    var refreshInFlight: Option<set<RequestId>>  // the promise, by who awaits it
    ghost var job: JobId                         // the POST the promise stands for

    function StoreView(): Store
      reads this
    {
      Store(if ACCESS_KEY in localStorage then Some(localStorage[ACCESS_KEY]) else None,
            if REFRESH_KEY in localStorage then Some(localStorage[REFRESH_KEY]) else None)
    }

    /** What this tab contributes to the protocol's state. */
    ghost predicate Shows(n: Net)
      reads this
    {
      && n.store == StoreView()
      && n.tabs == [if refreshInFlight.None? then None else Some(Flight(job, refreshInFlight.value))]
    }

    method SetTokens(pair: TokenPair)
      modifies this`localStorage
      ensures StoreView() == Stored(pair)
    {
      localStorage := localStorage[ACCESS_KEY := pair.accessToken];
      localStorage := localStorage[REFRESH_KEY := pair.refreshToken];
    }

    method ClearStoredTokens()
      modifies this`localStorage
      ensures StoreView() == EMPTY_STORE
    {
      localStorage := localStorage - {ACCESS_KEY};
      localStorage := localStorage - {REFRESH_KEY};
    }

    /** refreshAccessToken up to its first await; post is the POST it sends, if it sends one. */
    method BeginRefresh(r: RequestId, ghost n: Net) returns (post: Option<Jwt>, waits: bool)
      requires Shows(n) && r in n.calls && |n.posted| == |n.jobs|
      modifies this`refreshInFlight, this`job
      ensures Shows(RefreshAccessToken(n, 0, r))
      ensures RefreshAccessToken(n, 0, r).posted == n.posted + (if post.Some? then [post.value] else [])
      ensures RefreshAccessToken(n, 0, r).calls[r].phase == if waits then Waiting else Finished(false)
      ensures old(refreshInFlight).Some? ==> post.None?
    {
      if refreshInFlight.Some? {
        refreshInFlight := Some(refreshInFlight.value + {r});
        return None, true;
      }
      if REFRESH_KEY !in localStorage {
        return None, false;
      }
      post, waits := Some(localStorage[REFRESH_KEY]), true;
      refreshInFlight, job := Some({r}), |n.jobs|;
    }

    /** The rest of it: save both tokens or clear them, then reset the variable on every path. */
    method EndRefresh(reply: Option<TokenPair>, ghost n: Net)
      requires Shows(n) && refreshInFlight.Some?
      modifies this
      ensures Shows(Settle(n, 0, reply)) && refreshInFlight.None?
    {
      if reply.Some? {
        SetTokens(reply.value);
      } else {
        ClearStoredTokens();
      }
      refreshInFlight := None;
    }
  }
}