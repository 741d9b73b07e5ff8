/**
 * The tenant-scoped query engine: ambient contexts (packages/db/src/rls.ts), the
 * extension that wraps every model operation in a transaction with SET LOCAL, the
 * re-entrancy flag, the two atomic helpers, and the row policy of the database
 * ("super admin OR row tenant = setting", for reads, changes and inserts alike).
 *
 * Application code is a program over that interface. What it asks next may depend on
 * everything it has been answered so far, so queries, branches and loop bounds are
 * functions of the history of outcomes.
 */
module Rls {
  import opened Prelude

  // ---------------------------------------------------------------------------
  // Contexts, settings, rows
  // ---------------------------------------------------------------------------

  predicate IsHex(c: char) {
    '0' <= c <= '9' || 'a' <= c <= 'f' || 'A' <= c <= 'F'
  }

  /** The format a tenant id must have before it is spliced into SET LOCAL. */
  predicate IsUuid(s: string) {
    && |s| == 36
    && forall i :: 0 <= i < 36 ==> if i in {8, 13, 18, 23} then s[i] == '-' else IsHex(s[i])
  }

  /** Tenants are rows with a UUID key, and every tenant_id column refers to one. */
  type Uuid = s: string | IsUuid(s) witness "00000000-0000-0000-0000-000000000000"

  datatype TenantContext = TenantContext(tenantId: Option<string>, isSuperAdmin: bool)

  const SYSTEM_CONTEXT := TenantContext(None, true)

  function TenantScope(t: string): TenantContext {
    TenantContext(Some(t), false)
  }

  /** The two PostgreSQL settings the policy reads, on one connection. */
  datatype Settings = Settings(tenant: string, superAdmin: bool)

  /** A connection on which nothing was SET: the tenant setting reads as ''. */
  const NO_SETTINGS := Settings("", false)

  function SettingsOf(c: TenantContext): Settings {
    Settings(if c.tenantId.None? then "" else c.tenantId.value, c.isSuperAdmin)
  }

  datatype Row = Row(tenant: Uuid, columns: seq<int>, deleted: bool)

  type RowId = nat
  type Database = map<RowId, Row>

  predicate Visible(s: Settings, row: Row) {
    s.superAdmin || row.tenant == s.tenant
  }

  datatype Error =
    | NoContext        // an operation outside any context
    | InvalidUuid
    | PolicyViolation  // the new row would not be visible to its writer
    | NotFound
    | TxAborted        // a statement after a failed one, in the same transaction
    | TxClosed         // a transaction handle used outside its block
    | Thrown(code: int)

  type Outcome = Result<Database, Error>
  type History = seq<Outcome>

  datatype Query =
    | Find(filter: (RowId, Row) -> bool)
    | Create(row: Row)
    | UpdateMany(filter: (RowId, Row) -> bool, change: Row -> Row)
    | DeleteMany(filter: (RowId, Row) -> bool)
      // delete/deleteMany on a model with deletedAt: the soft-delete extension turns it
      // into an update through a client that is not the transaction's
    | InterceptedDelete(filter: (RowId, Row) -> bool, many: bool)

  function Matching(s: Settings, db: Database, filter: (RowId, Row) -> bool): Database {
    map id | id in db && Visible(s, db[id]) && filter(id, db[id]) :: db[id]
  }

  function Changed(targets: Database, change: Row -> Row): Database {
    map id | id in targets :: change(targets[id])
  }

  /** What the database answers to one statement under the given settings. */
  function Answer(q: Query, s: Settings, db: Database, next: RowId): Outcome {
    match q
    case Find(f) => Ok(Matching(s, db, f))
    case Create(row) => if Visible(s, row) then Ok(map[next := row]) else Err(PolicyViolation)
    case UpdateMany(f, c) =>
      var after := Changed(Matching(s, db, f), c);
      if forall id :: id in after ==> Visible(s, after[id]) then Ok(after) else Err(PolicyViolation)
    case DeleteMany(f) => Ok(Matching(s, db, f))
    case InterceptedDelete(f, many) =>
      var hit := Matching(NO_SETTINGS, db, f);
      if hit == map[] && !many then Err(NotFound) else Ok(hit)
  }

  /** The table after that statement; a failed statement changes nothing. */
  function Effect(q: Query, s: Settings, db: Database, next: RowId): Database {
    var a := Answer(q, s, db, next);
    if a.Err? then db
    else match q
      case Find(_) => db
      case Create(row) => db[next := row]
      case UpdateMany(_, _) => db + a.value
      case DeleteMany(_) => db - a.value.Keys
      case InterceptedDelete(_, _) => db + Changed(a.value, (r: Row) => r.(deleted := true))
  }

  // ---------------------------------------------------------------------------
  // Programs
  // ---------------------------------------------------------------------------

  datatype Handle = Base | Tx

  datatype AtomicKind = AtomicSystem | AtomicTenant(tenantId: string)

  datatype Prog =
    | Skip
    | Op(handle: Handle, query: History -> Query)
    | Then(first: Prog, second: Prog)
    | If(test: History -> bool, thn: Prog, els: Prog)
    | Repeat(times: History -> nat, body: Prog)
    | Throw(code: int)
    | Try(body: Prog)                        // errors of the body are caught
    | RunIn(ctx: TenantContext, body: Prog)  // runInTenantContext and its two wrappers
    | Atomic(kind: AtomicKind, body: Prog)   // with{System,Tenant}ContextAtomicTx

  function AtomicContext(kind: AtomicKind): TenantContext {
    match kind
    case AtomicSystem => SYSTEM_CONTEXT
    case AtomicTenant(t) => TenantScope(t)
  }

  predicate AtomicRefused(kind: AtomicKind) {
    kind.AtomicTenant? && !IsUuid(kind.tenantId)
  }

  /** What the connections do, in order. A statement carries the context ambient at its call. */
  datatype Event =
    | Begin(settings: Settings)
    | Statement(ambient: Option<TenantContext>)
    | Escaped          // a statement on a connection where nothing was SET
    | Commit
    | Rollback

  datatype World = World(db: Database, next: RowId, hist: History, trace: seq<Event>, doomed: bool)
  {
    function Log(o: Outcome): World {
      this.(hist := hist + [o])
    }

    function Emit(e: Event): World {
      this.(trace := trace + [e])
    }
  }

  /** ctx and inflight are the two AsyncLocalStorage frames; tx the open block's settings. */
  datatype Env = Env(ctx: Option<TenantContext>, inflight: bool, tx: Option<Settings>)

  datatype Status = Completed | Threw(error: Error)

  function StatusOf(o: Outcome): Status {
    if o.Ok? then Completed else Threw(o.error)
  }

  predicate Escapes(q: Query) {
    q.InterceptedDelete?
  }

  /** One statement on a connection with settings s. */
  function RunStatement(q: Query, s: Settings, ambient: Option<TenantContext>, w: World): (World, Outcome) {
    var o := Answer(q, s, w.db, w.next);
    var e := if Escapes(q) then Escaped else Statement(ambient);
    (World(Effect(q, s, w.db, w.next), w.next + 1, w.hist + [o], w.trace + [e], w.doomed), o)
  }

  function ExecOp(h: Handle, q: Query, env: Env, w: World): (World, Status) {
    match h
    case Tx =>
      if env.tx.None? then (w.Log(Err(TxClosed)), Threw(TxClosed))
      else if w.doomed then (w.Log(Err(TxAborted)), Threw(TxAborted))
      else
        var (w', o) := RunStatement(q, env.tx.value, env.ctx, w);
        (w'.(doomed := o == Err(PolicyViolation)), StatusOf(o))
    case Base =>
      if env.inflight then
        // the guard passes the call through, to the base client's own connection
        var o := Answer(q, NO_SETTINGS, w.db, w.next);
        (World(Effect(q, NO_SETTINGS, w.db, w.next), w.next + 1, w.hist + [o], w.trace + [Escaped], w.doomed),
          StatusOf(o))
      else if env.ctx.None? then (w.Log(Err(NoContext)), Threw(NoContext))
      else if env.ctx.value.tenantId.Some? && !IsUuid(env.ctx.value.tenantId.value) then
        (w.Log(Err(InvalidUuid)), Threw(InvalidUuid))
      else
        var s := SettingsOf(env.ctx.value);
        var (w', o) := RunStatement(q, s, env.ctx, w.Emit(Begin(s)));
        (w'.Emit(if o.Ok? then Commit else Rollback), StatusOf(o))
  }

  /** Closing a block: it commits when the body completed and no statement of it failed. */
  function CloseBlock(before: World, after: World, st: Status): World {
    if st.Completed? && !after.doomed then after.Emit(Commit).(doomed := before.doomed)
    else after.Emit(Rollback).(db := before.db, doomed := before.doomed)
  }

  function Exec(p: Prog, env: Env, w: World): (World, Status)
    decreases p, 0, 0
  {
    match p
    case Skip => (w, Completed)
    case Op(h, q) => ExecOp(h, q(w.hist), env, w)
    case Then(a, b) =>
      var (w', st) := Exec(a, env, w);
      if st.Completed? then Exec(b, env, w') else (w', st)
    case If(test, a, b) => if test(w.hist) then Exec(a, env, w) else Exec(b, env, w)
    case Repeat(times, body) => ExecLoop(times(w.hist), body, env, w)
    case Throw(code) => (w, Threw(Thrown(code)))
    case Try(body) =>
      var (w', st) := Exec(body, env, w);
      (if st.Completed? then w' else w'.Log(Err(st.error)), Completed)
    case RunIn(ctx, body) => Exec(body, env.(ctx := Some(ctx)), w)
    case Atomic(kind, body) =>
      if AtomicRefused(kind) then (w, Threw(InvalidUuid))
      else
        var c := AtomicContext(kind);
        var (w', st) := Exec(body, Env(Some(c), true, Some(SettingsOf(c))),
                             w.Emit(Begin(SettingsOf(c))).(doomed := false));
        (CloseBlock(w, w', st), st)
  }

  function ExecLoop(n: nat, body: Prog, env: Env, w: World): (World, Status)
    decreases body, 1, n
  {
    if n == 0 then (w, Completed)
    else
      var (w', st) := Exec(body, env, w);
      if st.Completed? then ExecLoop(n - 1, body, env, w') else (w', st)
  }

  // ---------------------------------------------------------------------------
  // Non-interference
  // ---------------------------------------------------------------------------

  function Slice(db: Database, t: Uuid): Database {
    map id | id in db && db[id].tenant == t :: db[id]
  }

  function Others(db: Database, t: Uuid): Database {
    map id | id in db && db[id].tenant != t :: db[id]
  }

  function Restricted(w: World, t: Uuid): World {
    w.(db := Slice(w.db, t))
  }

  /** Ids come from a fresh supply: nothing stored has the next one. */
  predicate Fresh(w: World) {
    forall id :: id in w.db ==> id < w.next
  }

  /**
   * No operation of p can run under a context other than tenant t's: p may nest any
   * contexts, but whatever reaches an operation on the base client is (t, false) or no
   * context at all, and its atomic blocks are tenant t's and not nested.
   */
  predicate Confined(p: Prog, ctx: Option<TenantContext>, inflight: bool, t: Uuid) {
    match p
    case Skip => true
    case Op(h, _) => h.Tx? || inflight || ctx.None? || ctx == Some(TenantScope(t))
    case Then(a, b) => Confined(a, ctx, inflight, t) && Confined(b, ctx, inflight, t)
    case If(_, a, b) => Confined(a, ctx, inflight, t) && Confined(b, ctx, inflight, t)
    case Repeat(_, body) => Confined(body, ctx, inflight, t)
    case Throw(_) => true
    case Try(body) => Confined(body, ctx, inflight, t)
    case RunIn(c, body) => Confined(body, Some(c), inflight, t)
    case Atomic(kind, body) =>
      !inflight && kind == AtomicTenant(t) && Confined(body, Some(TenantScope(t)), true, t)
  }

  /** Settings that cannot reach past tenant t: its own, or none. */
  predicate Within(s: Settings, t: Uuid) {
    s == Settings(t, false) || s == NO_SETTINGS
  }

  lemma MatchingWithin(s: Settings, db: Database, filter: (RowId, Row) -> bool, t: Uuid)
    requires Within(s, t)
    ensures Matching(s, Slice(db, t), filter) == Matching(s, db, filter)
    ensures forall id :: id in Matching(s, db, filter) ==> db[id].tenant == t
  {
  }

  lemma OverwriteSlice(db: Database, after: Database, t: Uuid)
    requires forall id :: id in after ==> id in db && db[id].tenant == t && after[id].tenant == t
    ensures Slice(db + after, t) == Slice(db, t) + after
    ensures Others(db + after, t) == Others(db, t)
  {
    OverwriteInside(db, after, t);
    OverwriteOutside(db, after, t);
  }

  lemma OverwriteInside(db: Database, after: Database, t: Uuid)
    requires forall id :: id in after ==> id in db && db[id].tenant == t && after[id].tenant == t
    ensures Slice(db + after, t) == Slice(db, t) + after
  {
    assert Slice(db + after, t).Keys == Slice(db, t).Keys;
  }

  lemma OverwriteOutside(db: Database, after: Database, t: Uuid)
    requires forall id :: id in after ==> id in db && db[id].tenant == t && after[id].tenant == t
    ensures Others(db + after, t) == Others(db, t)
  {
    assert Others(db + after, t).Keys == Others(db, t).Keys;
  }

  lemma RemoveSlice(db: Database, gone: Database, t: Uuid)
    requires forall id :: id in gone ==> id in db && db[id].tenant == t
    ensures Slice(db - gone.Keys, t) == Slice(db, t) - gone.Keys
    ensures Others(db - gone.Keys, t) == Others(db, t)
  {
  }

  ghost predicate Isolated(q: Query, s: Settings, db: Database, next: RowId, t: Uuid) {
    && Answer(q, s, Slice(db, t), next) == Answer(q, s, db, next)
    && Effect(q, s, Slice(db, t), next) == Slice(Effect(q, s, db, next), t)
    && Others(Effect(q, s, db, next), t) == Others(db, t)
    && (forall id :: id in Effect(q, s, db, next) ==> id in db || id == next)
  }

  lemma CreateConfined(q: Query, s: Settings, db: Database, next: RowId, t: Uuid)
    requires Within(s, t) && next !in db && q.Create?
    ensures Isolated(q, s, db, next, t)
  {
    if Visible(s, q.row) {
      assert q.row.tenant == t;
      assert Slice(db[next := q.row], t) == Slice(db, t)[next := q.row];
    }
  }

  lemma UpdateConfined(q: Query, s: Settings, db: Database, next: RowId, t: Uuid)
    requires Within(s, t) && q.UpdateMany?
    ensures Isolated(q, s, db, next, t)
  {
    MatchingWithin(s, db, q.filter, t);
    var after := Changed(Matching(s, db, q.filter), q.change);
    if forall id :: id in after ==> Visible(s, after[id]) {
      OverwriteSlice(db, after, t);
    }
  }

  lemma DeleteConfined(q: Query, s: Settings, db: Database, next: RowId, t: Uuid)
    requires Within(s, t) && q.DeleteMany?
    ensures Isolated(q, s, db, next, t)
  {
    MatchingWithin(s, db, q.filter, t);
    RemoveSlice(db, Matching(s, db, q.filter), t);
  }

  lemma InterceptedConfined(q: Query, s: Settings, db: Database, next: RowId, t: Uuid)
    requires q.InterceptedDelete?
    ensures Isolated(q, s, db, next, t)
  {
    MatchingWithin(NO_SETTINGS, db, q.filter, t);
    assert Matching(NO_SETTINGS, db, q.filter) == map[];
    assert Matching(NO_SETTINGS, Slice(db, t), q.filter) == map[];
    assert Effect(q, s, db, next) == db;
  }

  /** One statement under tenant t's settings neither sees nor touches anyone else's rows. */
  lemma StatementConfined(q: Query, s: Settings, db: Database, next: RowId, t: Uuid)
    requires Within(s, t)
    requires next !in db
    ensures Isolated(q, s, db, next, t)
  {
    match q
    case Find(f) => MatchingWithin(s, db, f, t);
    case Create(row) => CreateConfined(q, s, db, next, t);
    case UpdateMany(_, _) => UpdateConfined(q, s, db, next, t);
    case DeleteMany(_) => DeleteConfined(q, s, db, next, t);
    case InterceptedDelete(_, _) => InterceptedConfined(q, s, db, next, t);
  }

  /** The relation kept between the run on everything and the run on tenant t's rows only. */
  ghost predicate Agree(before: World, full: (World, Status), alone: (World, Status), t: Uuid) {
    && alone.1 == full.1
    && alone.0 == Restricted(full.0, t)
    && Others(full.0.db, t) == Others(before.db, t)
    && Fresh(full.0)
    && before.next <= full.0.next
  }

  lemma StatementAgrees(q: Query, s: Settings, w: World, t: Uuid)
    requires Within(s, t) && Fresh(w)
    ensures Answer(q, s, Slice(w.db, t), w.next) == Answer(q, s, w.db, w.next)
    ensures Effect(q, s, Slice(w.db, t), w.next) == Slice(Effect(q, s, w.db, w.next), t)
    ensures Others(Effect(q, s, w.db, w.next), t) == Others(w.db, t)
    ensures forall id :: id in Effect(q, s, w.db, w.next) ==> id < w.next + 1
  {
    StatementConfined(q, s, w.db, w.next, t);
  }

  lemma TxOpConfined(q: Query, env: Env, w: World, t: Uuid)
    requires env.tx.Some? ==> env.tx.value == Settings(t, false)
    requires Fresh(w)
    ensures Agree(w, ExecOp(Tx, q, env, w), ExecOp(Tx, q, env, Restricted(w, t)), t)
  {
    StatementAgrees(q, Settings(t, false), w, t);
  }

  lemma BaseOpConfined(q: Query, env: Env, w: World, t: Uuid)
    requires env.inflight || env.ctx.None? || env.ctx == Some(TenantScope(t))
    requires Fresh(w)
    ensures Agree(w, ExecOp(Base, q, env, w), ExecOp(Base, q, env, Restricted(w, t)), t)
  {
    if env.inflight {
      StatementAgrees(q, NO_SETTINGS, w, t);
    } else if env.ctx.Some? {
      StatementAgrees(q, Settings(t, false), w, t);
    }
  }

  lemma OpConfined(h: Handle, q: Query, env: Env, w: World, t: Uuid)
    requires h.Tx? || env.inflight || env.ctx.None? || env.ctx == Some(TenantScope(t))
    requires env.tx.Some? ==> env.tx.value == Settings(t, false)
    requires Fresh(w)
    ensures Agree(w, ExecOp(h, q, env, w), ExecOp(h, q, env, Restricted(w, t)), t)
  {
    if h.Tx? {
      TxOpConfined(q, env, w, t);
    } else {
      BaseOpConfined(q, env, w, t);
    }
  }

  lemma {:induction false} ExecConfined(p: Prog, env: Env, w: World, t: Uuid)
    requires Confined(p, env.ctx, env.inflight, t)
    requires env.tx.Some? ==> env.tx.value == Settings(t, false)
    requires Fresh(w)
    ensures Agree(w, Exec(p, env, w), Exec(p, env, Restricted(w, t)), t)
    decreases p, 0, 0
  {
    match p
    case Skip =>
    case Op(h, q) => OpConfined(h, q(w.hist), env, w, t);
    case Then(a, b) =>
      ExecConfined(a, env, w, t);
      var (w', st) := Exec(a, env, w);
      if st.Completed? { ExecConfined(b, env, w', t); }
    case If(test, a, b) =>
      if test(w.hist) { ExecConfined(a, env, w, t); } else { ExecConfined(b, env, w, t); }
    case Repeat(times, body) => LoopConfined(times(w.hist), body, env, w, t);
    case Throw(_) =>
    case Try(body) => ExecConfined(body, env, w, t);
    case RunIn(c, body) => ExecConfined(body, env.(ctx := Some(c)), w, t);
    case Atomic(kind, body) =>
      var c := TenantScope(t);
      ExecConfined(body, Env(Some(c), true, Some(SettingsOf(c))),
                   w.Emit(Begin(SettingsOf(c))).(doomed := false), t);
  }

  lemma {:induction false} LoopConfined(n: nat, body: Prog, env: Env, w: World, t: Uuid)
    requires Confined(body, env.ctx, env.inflight, t)
    requires env.tx.Some? ==> env.tx.value == Settings(t, false)
    requires Fresh(w)
    ensures Agree(w, ExecLoop(n, body, env, w), ExecLoop(n, body, env, Restricted(w, t)), t)
    decreases body, 1, n
  {
    if n > 0 {
      ExecConfined(body, env, w, t);
      var (w', st) := Exec(body, env, w);
      if st.Completed? { LoopConfined(n - 1, body, env, w', t); }
    }
  }

  const OUTSIDE := Env(None, false, None)

  /**
   * Non-interference. A program run in tenant t's context leaves the rows of every other
   * tenant exactly as they were, and its status, everything it was told on the way, and
   * tenant t's rows afterwards are those of the same run on a database that holds tenant
   * t's rows alone.
   */
  lemma NonInterference(p: Prog, w: World, t: Uuid)
    requires Confined(p, Some(TenantScope(t)), false, t)
    requires Fresh(w)
    ensures
      var (after, st) := Exec(RunIn(TenantScope(t), p), OUTSIDE, w);
      var (afterAlone, stAlone) := Exec(RunIn(TenantScope(t), p), OUTSIDE, Restricted(w, t));
      && Others(after.db, t) == Others(w.db, t)
      && stAlone == st
      && afterAlone.hist == after.hist
      && afterAlone.db == Slice(after.db, t)
  {
    ExecConfined(RunIn(TenantScope(t), p), OUTSIDE, w, t);
  }

  /** Two databases that agree on tenant t's rows cannot be told apart from inside t's context. */
  lemma Indistinguishable(p: Prog, w1: World, w2: World, t: Uuid)
    requires Confined(p, Some(TenantScope(t)), false, t)
    requires Fresh(w1) && Fresh(w2)
    requires Restricted(w1, t) == Restricted(w2, t)
    ensures
      var (a1, s1) := Exec(RunIn(TenantScope(t), p), OUTSIDE, w1);
      var (a2, s2) := Exec(RunIn(TenantScope(t), p), OUTSIDE, w2);
      s1 == s2 && a1.hist == a2.hist && Slice(a1.db, t) == Slice(a2.db, t)
  {
    NonInterference(p, w1, t);
    NonInterference(p, w2, t);
  }

  // ---------------------------------------------------------------------------
  // Transactions and their settings
  // ---------------------------------------------------------------------------

  datatype Phase = Idle | InTx(settings: Settings) | Illegal

  /**
   * The legal life of the connections: one transaction at a time, and inside it only
   * statements whose ambient context is the one its settings came from.
   */
  function NextPhase(ph: Phase, e: Event): Phase {
    match e
    case Begin(s) => if ph.Idle? then InTx(s) else Illegal
    case Statement(c) => if ph.InTx? && c.Some? && SettingsOf(c.value) == ph.settings then ph else Illegal
    case Escaped => Illegal
    case Commit => if ph.InTx? then Idle else Illegal
    case Rollback => if ph.InTx? then Idle else Illegal
  }

  function Scan(trace: seq<Event>): Phase {
    if trace == [] then Idle else NextPhase(Scan(trace[..|trace| - 1]), trace[|trace| - 1])
  }

  lemma ScanEmit(trace: seq<Event>, e: Event)
    ensures Scan(trace + [e]) == NextPhase(Scan(trace), e)
  {
    assert (trace + [e])[..|trace|] == trace;
  }

  /**
   * The documented convention: inside an atomic block only the block's own handle is used,
   * no context is entered and no block begun; outside, only the base client; and a model
   * with deletedAt is never deleted through the interceptor.
   */
  ghost predicate Disciplined(p: Prog, inBlock: bool) {
    match p
    case Op(h, q) => h.Tx? == inBlock && forall past :: !Escapes(q(past))
    case Then(a, b) => Disciplined(a, inBlock) && Disciplined(b, inBlock)
    case If(_, a, b) => Disciplined(a, inBlock) && Disciplined(b, inBlock)
    case Repeat(_, body) => Disciplined(body, inBlock)
    case Try(body) => Disciplined(body, inBlock)
    case RunIn(_, body) => !inBlock && Disciplined(body, false)
    case Atomic(_, body) => !inBlock && Disciplined(body, true)
    case _ => true
  }

  /** The frames and the connection agree: a block is open exactly when the flag is up. */
  predicate Coherent(env: Env, trace: seq<Event>) {
    && env.inflight == env.tx.Some?
    && (env.tx.Some? ==> env.ctx.Some? && env.tx.value == SettingsOf(env.ctx.value))
    && Scan(trace) == if env.tx.Some? then InTx(env.tx.value) else Idle
  }

  /** A transaction around one statement: begun, used with its own settings, and closed. */
  lemma WrapsOne(trace: seq<Event>, c: TenantContext)
    requires Scan(trace) == Idle
    ensures
      var used := trace + [Begin(SettingsOf(c))] + [Statement(Some(c))];
      Scan(used + [Commit]) == Scan(used + [Rollback]) == Idle
  {
    var begun := trace + [Begin(SettingsOf(c))];
    ScanEmit(trace, Begin(SettingsOf(c)));
    ScanEmit(begun, Statement(Some(c)));
    ScanEmit(begun + [Statement(Some(c))], Commit);
    ScanEmit(begun + [Statement(Some(c))], Rollback);
  }

  lemma TxOpInItsContext(q: Query, env: Env, w: World)
    requires env.tx.Some? && !Escapes(q) && Coherent(env, w.trace)
    ensures Coherent(env, ExecOp(Tx, q, env, w).0.trace)
  {
    ScanEmit(w.trace, Statement(env.ctx));
  }

  lemma BaseOpInItsContext(q: Query, env: Env, w: World)
    requires env.tx.None? && !Escapes(q) && Coherent(env, w.trace)
    ensures Coherent(env, ExecOp(Base, q, env, w).0.trace)
  {
    if env.ctx.Some? {
      WrapsOne(w.trace, env.ctx.value);
    }
  }

  lemma OpInItsContext(h: Handle, q: Query, env: Env, w: World)
    requires h.Tx? == env.tx.Some? && !Escapes(q)
    requires Coherent(env, w.trace)
    ensures Coherent(env, ExecOp(h, q, env, w).0.trace)
  {
    if h.Tx? {
      TxOpInItsContext(q, env, w);
    } else {
      BaseOpInItsContext(q, env, w);
    }
  }

  lemma ClosesIdle(before: World, after: World, st: Status)
    requires Scan(after.trace).InTx?
    ensures Scan(CloseBlock(before, after, st).trace) == Idle
  {
    ScanEmit(after.trace, Commit);
    ScanEmit(after.trace, Rollback);
  }

  /**
   * Every statement of a disciplined program runs in a transaction whose settings are those
   * of the innermost context around it; transactions never nest, and each one is closed.
   */
  lemma {:induction false} RunsInItsContext(p: Prog, env: Env, w: World)
    requires Disciplined(p, env.tx.Some?)
    requires Coherent(env, w.trace)
    ensures Coherent(env, Exec(p, env, w).0.trace)
    decreases p, 0, 0
  {
    match p
    case Skip =>
    case Op(h, q) => OpInItsContext(h, q(w.hist), env, w);
    case Then(a, b) =>
      RunsInItsContext(a, env, w);
      var (w', st) := Exec(a, env, w);
      if st.Completed? { RunsInItsContext(b, env, w'); }
    case If(test, a, b) =>
      if test(w.hist) { RunsInItsContext(a, env, w); } else { RunsInItsContext(b, env, w); }
    case Repeat(times, body) => LoopInItsContext(times(w.hist), body, env, w);
    case Throw(_) =>
    case Try(body) => RunsInItsContext(body, env, w);
    case RunIn(c, body) => RunsInItsContext(body, env.(ctx := Some(c)), w);
    case Atomic(kind, body) =>
      if !AtomicRefused(kind) {
        var c := AtomicContext(kind);
        var begun := w.Emit(Begin(SettingsOf(c))).(doomed := false);
        var inner := Env(Some(c), true, Some(SettingsOf(c)));
        ScanEmit(w.trace, Begin(SettingsOf(c)));
        RunsInItsContext(body, inner, begun);
        var (w', st) := Exec(body, inner, begun);
        ClosesIdle(w, w', st);
      }
  }

  lemma {:induction false} LoopInItsContext(n: nat, body: Prog, env: Env, w: World)
    requires Disciplined(body, env.tx.Some?)
    requires Coherent(env, w.trace)
    ensures Coherent(env, ExecLoop(n, body, env, w).0.trace)
    decreases body, 1, n
  {
    if n > 0 {
      RunsInItsContext(body, env, w);
      var (w', st) := Exec(body, env, w);
      if st.Completed? { LoopInItsContext(n - 1, body, env, w'); }
    }
  }

  /** p enters no context of its own. */
  predicate Uncovered(p: Prog) {
    match p
    case Then(a, b) => Uncovered(a) && Uncovered(b)
    case If(_, a, b) => Uncovered(a) && Uncovered(b)
    case Repeat(_, body) => Uncovered(body)
    case Try(body) => Uncovered(body)
    case RunIn(_, _) => false
    case Atomic(_, _) => false
    case _ => true
  }

  /** Outside any context nothing reaches the database: no transaction opens, nothing is read. */
  lemma {:induction false} FailsFast(p: Prog, w: World)
    requires Uncovered(p)
    ensures
      var (after, st) := Exec(p, OUTSIDE, w);
      && after.trace == w.trace && after.db == w.db
      && w.hist <= after.hist
      && (forall i :: |w.hist| <= i < |after.hist| ==> after.hist[i].Err?)
    decreases p, 0, 0
  {
    match p
    case Then(a, b) =>
      FailsFast(a, w);
      var (w', st) := Exec(a, OUTSIDE, w);
      if st.Completed? { FailsFast(b, w'); }
    case If(test, a, b) => if test(w.hist) { FailsFast(a, w); } else { FailsFast(b, w); }
    case Repeat(times, body) => LoopFailsFast(times(w.hist), body, w);
    case Try(body) => FailsFast(body, w);
    case _ =>
  }

  lemma {:induction false} LoopFailsFast(n: nat, body: Prog, w: World)
    requires Uncovered(body)
    ensures
      var (after, st) := ExecLoop(n, body, OUTSIDE, w);
      && after.trace == w.trace && after.db == w.db
      && w.hist <= after.hist
      && (forall i :: |w.hist| <= i < |after.hist| ==> after.hist[i].Err?)
    decreases body, 1, n
  {
    if n > 0 {
      FailsFast(body, w);
      var (w', st) := Exec(body, OUTSIDE, w);
      if st.Completed? { LoopFailsFast(n - 1, body, w'); }
    }
  }

  // ---------------------------------------------------------------------------
  // Atomicity
  // ---------------------------------------------------------------------------

  /** The transaction is doomed exactly when it was, or a statement was refused since `before`. */
  ghost predicate Remembers(before: World, after: World) {
    && before.hist <= after.hist
    && (after.doomed <==>
          before.doomed || exists i :: |before.hist| <= i < |after.hist| && after.hist[i] == Err(PolicyViolation))
  }

  lemma RemembersOn(a: World, b: World, c: World)
    requires Remembers(a, b) && Remembers(b, c)
    ensures Remembers(a, c)
  {
    if i :| |a.hist| <= i < |b.hist| && b.hist[i] == Err(PolicyViolation) {
      assert c.hist[i] == Err(PolicyViolation);
    }
  }

  /** One outcome more: the transaction is doomed by it exactly when it is a refusal. */
  lemma RemembersOne(a: World, b: World, o: Outcome)
    requires b.hist == a.hist + [o] && b.doomed == (a.doomed || o == Err(PolicyViolation))
    ensures Remembers(a, b)
  {
    assert b.hist[|a.hist|] == o;
  }

  lemma OpRemembers(q: Query, env: Env, w: World)
    requires env.tx.Some?
    ensures Remembers(w, ExecOp(Tx, q, env, w).0)
    ensures ExecOp(Tx, q, env, w).1 == Threw(PolicyViolation) ==> ExecOp(Tx, q, env, w).0.doomed
  {
    var o := if w.doomed then Err(TxAborted) else Answer(q, env.tx.value, w.db, w.next);
    RemembersOne(w, ExecOp(Tx, q, env, w).0, o);
  }

  lemma {:induction false} BlockRemembers(p: Prog, env: Env, w: World)
    requires Disciplined(p, true) && env.tx.Some?
    ensures Remembers(w, Exec(p, env, w).0)
    ensures Exec(p, env, w).1 == Threw(PolicyViolation) ==> Exec(p, env, w).0.doomed
    decreases p, 0, 0
  {
    match p
    case Op(_, q) => OpRemembers(q(w.hist), env, w);
    case Then(a, b) =>
      BlockRemembers(a, env, w);
      var (w', st) := Exec(a, env, w);
      if st.Completed? {
        BlockRemembers(b, env, w');
        RemembersOn(w, w', Exec(b, env, w').0);
      }
    case If(test, a, b) =>
      if test(w.hist) { BlockRemembers(a, env, w); } else { BlockRemembers(b, env, w); }
    case Repeat(times, body) => LoopRemembers(times(w.hist), body, env, w);
    case Try(body) =>
      BlockRemembers(body, env, w);
      var (w', st) := Exec(body, env, w);
      if st.Threw? {
        RemembersOne(w', w'.Log(Err(st.error)), Err(st.error));
        RemembersOn(w, w', w'.Log(Err(st.error)));
      }
    case _ =>
  }

  lemma {:induction false} LoopRemembers(n: nat, body: Prog, env: Env, w: World)
    requires Disciplined(body, true) && env.tx.Some?
    ensures Remembers(w, ExecLoop(n, body, env, w).0)
    ensures ExecLoop(n, body, env, w).1 == Threw(PolicyViolation) ==> ExecLoop(n, body, env, w).0.doomed
    decreases body, 1, n
  {
    if n > 0 {
      BlockRemembers(body, env, w);
      var (w', st) := Exec(body, env, w);
      if st.Completed? {
        LoopRemembers(n - 1, body, env, w');
        RemembersOn(w, w', ExecLoop(n - 1, body, env, w').0);
      }
    }
  }

  /**
   * All or nothing: a block that throws, or in which any statement was refused - even one
   * whose error the body caught and survived - leaves the database as it found it.
   */
  lemma AllOrNothing(kind: AtomicKind, body: Prog, env: Env, w: World)
    requires Disciplined(body, true)
    ensures
      var (after, st) := Exec(Atomic(kind, body), env, w);
      && w.hist <= after.hist
      && (st.Threw? || Err(PolicyViolation) in after.hist[|w.hist|..] ==> after.db == w.db)
  {
    if !AtomicRefused(kind) {
      var c := AtomicContext(kind);
      var inner := Env(Some(c), true, Some(SettingsOf(c)));
      var begun := w.Emit(Begin(SettingsOf(c))).(doomed := false);
      BlockRemembers(body, inner, begun);
    }
  }

  lemma RefusedSince(past: nat, hist: History)
    requires past <= |hist|
    ensures Err(PolicyViolation) in hist[past..] <==>
      exists i :: past <= i < |hist| && hist[i] == Err(PolicyViolation)
  {
    if i :| past <= i < |hist| && hist[i] == Err(PolicyViolation) {
      assert hist[past..][i - past] == Err(PolicyViolation);
    }
  }

  /** The writes are there and the transaction committed; or they are not, and it was rolled back. */
  predicate KeptIff(kept: bool, before: World, ended: World, after: World) {
    && (kept ==> after.db == ended.db && after.trace == ended.trace + [Commit])
    && (!kept ==> after.db == before.db && after.trace == ended.trace + [Rollback])
  }

  /**
   * A block that completes, with no statement refused on the way, keeps all that its body
   * wrote, and its transaction commits; any other is rolled back. What was answered on the
   * way stays known, and an enclosing transaction is as sound as it was.
   */
  lemma BlockCommitsIff(kind: AtomicKind, body: Prog, env: Env, w: World)
    requires Disciplined(body, true) && !AtomicRefused(kind)
    ensures
      var c := AtomicContext(kind);
      var (ended, st) := Exec(body, Env(Some(c), true, Some(SettingsOf(c))),
                              w.Emit(Begin(SettingsOf(c))).(doomed := false));
      var (after, status) := Exec(Atomic(kind, body), env, w);
      && status == st && after.hist == ended.hist && after.next == ended.next && after.doomed == w.doomed
      && w.hist <= ended.hist
      && KeptIff(st.Completed? && Err(PolicyViolation) !in ended.hist[|w.hist|..], w, ended, after)
  {
    var c := AtomicContext(kind);
    var inner := Env(Some(c), true, Some(SettingsOf(c)));
    var begun := w.Emit(Begin(SettingsOf(c))).(doomed := false);
    BlockRemembers(body, inner, begun);
    var (ended, st) := Exec(body, inner, begun);
    RefusedSince(|w.hist|, ended.hist);
    assert Exec(Atomic(kind, body), env, w) == (CloseBlock(w, ended, st), st);
    assert ended.doomed <==> Err(PolicyViolation) in ended.hist[|w.hist|..];
  }

  // ---------------------------------------------------------------------------
  // What one operation does
  // ---------------------------------------------------------------------------

  /** Which rows a context reaches: every one of a system context's, and a tenant's own. */
  predicate Reaches(ctx: TenantContext, row: Row) {
    ctx.isSuperAdmin || ctx.tenantId == Some(row.tenant)
  }

  /** The answer to a query, and the table after it, row by row. */
  ghost predicate Means(q: Query, ctx: TenantContext, db: Database, next: RowId, o: Outcome, db': Database) {
    match q
    case Find(f) =>
      && o.Ok? && db' == db
      && (forall id :: id in o.value <==> id in db && Reaches(ctx, db[id]) && f(id, db[id]))
      && (forall id :: id in o.value ==> o.value[id] == db[id])
    case Create(row) =>
      if Reaches(ctx, row) then o == Ok(map[next := row]) && db' == db[next := row]
      else o == Err(PolicyViolation) && db' == db
    case UpdateMany(f, c) =>
      if forall id :: id in db && Reaches(ctx, db[id]) && f(id, db[id]) ==> Reaches(ctx, c(db[id])) then
        && o.Ok? && (forall id :: id in o.value <==> id in db && Reaches(ctx, db[id]) && f(id, db[id]))
        && (forall id :: id in db' <==> id in db)
        && (forall id :: id in db ==>
              db'[id] == if Reaches(ctx, db[id]) && f(id, db[id]) then c(db[id]) else db[id])
      else o == Err(PolicyViolation) && db' == db
    case DeleteMany(f) =>
      && o.Ok? && (forall id :: id in o.value <==> id in db && Reaches(ctx, db[id]) && f(id, db[id]))
      && (forall id :: id in db' <==> id in db && !(Reaches(ctx, db[id]) && f(id, db[id])))
      && (forall id :: id in db' ==> db'[id] == db[id])
    case InterceptedDelete(_, _) => db' == db
  }

  lemma StatementMeans(q: Query, ctx: TenantContext, db: Database, next: RowId)
    requires ctx.tenantId.Some? ==> IsUuid(ctx.tenantId.value)
    ensures Means(q, ctx, db, next, Answer(q, SettingsOf(ctx), db, next), Effect(q, SettingsOf(ctx), db, next))
  {
    assert forall row: Row :: Visible(SettingsOf(ctx), row) == Reaches(ctx, row);
    match q
    case UpdateMany(f, c) => UpdateMeans(f, c, ctx, db, next);
    case InterceptedDelete(f, _) => assert Matching(NO_SETTINGS, db, f) == map[];
    case _ =>
  }

  lemma UpdateMeans(f: (RowId, Row) -> bool, c: Row -> Row, ctx: TenantContext, db: Database, next: RowId)
    requires forall row: Row :: Visible(SettingsOf(ctx), row) == Reaches(ctx, row)
    ensures
      var q, s := UpdateMany(f, c), SettingsOf(ctx);
      Means(q, ctx, db, next, Answer(q, s, db, next), Effect(q, s, db, next))
  {
    var hit := Matching(SettingsOf(ctx), db, f);
    var after := Changed(hit, c);
    assert forall id :: id in hit <==> id in db && Reaches(ctx, db[id]) && f(id, db[id]);
    assert forall id :: id in hit ==> hit[id] == db[id] && after[id] == c(db[id]);
  }

  /** An operation of the base client in a valid context, or of an open block's handle. */
  predicate Serves(h: Handle, env: Env, w: World, ctx: TenantContext) {
    && env.ctx == Some(ctx) && (ctx.tenantId.Some? ==> IsUuid(ctx.tenantId.value))
    && if h.Base? then !env.inflight else env.tx == Some(SettingsOf(ctx)) && !w.doomed
  }

  /**
   * One operation reaches exactly the rows of its context, and what it wrote stays. The base
   * client's is a transaction of its own: committed when it went well, rolled back otherwise.
   */
  lemma OperationMeans(h: Handle, query: History -> Query, env: Env, w: World, ctx: TenantContext)
    requires Serves(h, env, w, ctx) && !Escapes(query(w.hist))
    ensures
      var (after, st) := Exec(Op(h, query), env, w);
      && after.hist != [] && after.hist == w.hist + [after.hist[|w.hist|]] && after.next == w.next + 1
      && var o := after.hist[|w.hist|];
         && Means(query(w.hist), ctx, w.db, w.next, o, after.db)
         && st == (if o.Ok? then Completed else Threw(o.error))
         && after.trace == w.trace +
              if h.Tx? then [Statement(Some(ctx))]
              else [Begin(SettingsOf(ctx)), Statement(Some(ctx)), if o.Ok? then Commit else Rollback]
  {
    var q, s := query(w.hist), SettingsOf(ctx);
    StatementMeans(q, ctx, w.db, w.next);
    var (after, st) := ExecOp(h, q, env, w);
    assert after.hist == w.hist + [Answer(q, s, w.db, w.next)];
    assert after.db == Effect(q, s, w.db, w.next);
  }

  /** A row created in an atomic block that does nothing else is in the database afterwards. */
  lemma CreatedInABlockStays(kind: AtomicKind, row: Row, env: Env, w: World)
    requires kind == AtomicSystem || kind == AtomicTenant(row.tenant)
    ensures
      var (after, st) := Exec(Atomic(kind, Op(Tx, _ => Create(row))), env, w);
      var c := AtomicContext(kind);
      && st == Completed && after.db == w.db[w.next := row]
      && after.trace == w.trace + [Begin(SettingsOf(c)), Statement(Some(c)), Commit]
  {
    var body := Op(Tx, (past: History) => Create(row));
    var c := AtomicContext(kind);
    var inner := Env(Some(c), true, Some(SettingsOf(c)));
    var begun := w.Emit(Begin(SettingsOf(c))).(doomed := false);
    BlockCommitsIff(kind, body, env, w);
    OperationMeans(Tx, body.query, inner, begun, c);
    assert Exec(body, inner, begun).0.hist[|w.hist|..] == [Ok(map[w.next := row])];
  }

  /**
   * The context holds for the length of the call and no longer: inside it the row is stored,
   * in the innermost context; the operation after it is outside again, and refused.
   */
  lemma ContextHoldsForItsCall(outer: TenantContext, t: Uuid, row: Row, after: Prog, w: World)
    requires row.tenant == t
    requires after.Op? && after.handle.Base?
    ensures
      var create := Op(Base, _ => Create(row));
      var (w', st) := Exec(Then(RunIn(outer, RunIn(TenantScope(t), create)), after), OUTSIDE, w);
      && w'.db == w.db[w.next := row] && st == Threw(NoContext)
      && w'.hist == w.hist + [Ok(map[w.next := row]), Err(NoContext)]
  {
    var create := Op(Base, (past: History) => Create(row));
    var inner := OUTSIDE.(ctx := Some(TenantScope(t)));
    OperationMeans(Base, create.query, inner, w, TenantScope(t));
    var w1 := Exec(create, inner, w).0;
    assert Exec(RunIn(outer, RunIn(TenantScope(t), create)), OUTSIDE, w) == (w1, Completed);
    assert Exec(after, OUTSIDE, w1) == (w1.Log(Err(NoContext)), Threw(NoContext));
  }

  /**
   * A tenant id that is not a UUID never reaches a connection: neither a block nor an operation
   * begins a transaction for it. One that is has no character that could end the literal.
   */
  lemma BadTenantIsRefused(t: string, body: Prog, h: Handle, query: History -> Query, env: Env, w: World)
    ensures !IsUuid(t) ==> Exec(Atomic(AtomicTenant(t), body), env, w) == (w, Threw(InvalidUuid))
    ensures
      var bad := env.(ctx := Some(TenantScope(t)));
      !IsUuid(t) && !env.inflight ==> Exec(Op(Base, query), bad, w) == (w.Log(Err(InvalidUuid)), Threw(InvalidUuid))
    ensures IsUuid(t) ==> forall i :: 0 <= i < |t| ==> t[i] != '\''
  {
  }

  /**
   * An operation of the base client inside a block is passed through to a connection where
   * nothing was SET, and so reads no row and writes none.
   */
  lemma ReentryReachesNothing(query: History -> Query, env: Env, w: World)
    requires env.inflight && !Escapes(query(w.hist))
    ensures
      var (after, st) := Exec(Op(Base, query), env, w);
      && after.hist == w.hist + [after.hist[|w.hist|]] && after.trace == w.trace + [Escaped] && after.db == w.db
      && Means(query(w.hist), TenantContext(None, false), w.db, w.next, after.hist[|w.hist|], after.db)
  {
    var q := query(w.hist);
    StatementMeans(q, TenantContext(None, false), w.db, w.next);
    var after := ExecOp(Base, q, env, w).0;
    assert after.hist == w.hist + [Answer(q, NO_SETTINGS, w.db, w.next)];
    assert after.db == w.db;
  }

  /** A row of somebody else's is refused, the refusal is caught, and a row of one's own created. */
  function Careless(h: Handle, foreign: Row, own: Row): Prog {
    Then(Try(Op(h, _ => Create(foreign))), Op(h, _ => Create(own)))
  }

  /**
   * A refusal undoes its own transaction only: between operations of the base client it is
   * survived, while in an atomic block nothing after it runs, and nothing is kept.
   */
  lemma RefusalUndoesItsTransaction(t: Uuid, foreign: Row, own: Row, w: World)
    requires own.tenant == t && foreign.tenant != t
    ensures
      var (w', st) := Exec(RunIn(TenantScope(t), Careless(Base, foreign, own)), OUTSIDE, w);
      st == Completed && w'.db == w.db[w.next + 1 := own]
    ensures
      var (w', st) := Exec(Atomic(AtomicTenant(t), Careless(Tx, foreign, own)), OUTSIDE, w);
      st == Threw(TxAborted) && w'.db == w.db
  {
    CarelessOutside(t, foreign, own, w);
    var c := TenantScope(t);
    var inner := Env(Some(c), true, Some(SettingsOf(c)));
    var begun := w.Emit(Begin(SettingsOf(c))).(doomed := false);
    var first, second := Op(Tx, (past: History) => Create(foreign)), Op(Tx, (past: History) => Create(own));
    OperationMeans(Tx, first.query, inner, begun, c);
    var (w1, st1) := Exec(first, inner, begun);
    assert st1 == Threw(PolicyViolation) && w1.doomed;
    assert Exec(Try(first), inner, begun) == (w1.Log(Err(PolicyViolation)), Completed);
    assert Exec(Careless(Tx, foreign, own), inner, begun).1 == Threw(TxAborted);
    AllOrNothing(AtomicTenant(t), Careless(Tx, foreign, own), OUTSIDE, w);
  }

  lemma CarelessOutside(t: Uuid, foreign: Row, own: Row, w: World)
    requires own.tenant == t && foreign.tenant != t
    ensures
      var (w', st) := Exec(RunIn(TenantScope(t), Careless(Base, foreign, own)), OUTSIDE, w);
      st == Completed && w'.db == w.db[w.next + 1 := own]
  {
    var env := OUTSIDE.(ctx := Some(TenantScope(t)));
    var first, second := Op(Base, (past: History) => Create(foreign)), Op(Base, (past: History) => Create(own));
    OperationMeans(Base, first.query, env, w, TenantScope(t));
    var w1 := Exec(first, env, w).0;
    var w2 := w1.Log(Err(PolicyViolation));
    assert Exec(Try(first), env, w) == (w2, Completed);
    OperationMeans(Base, second.query, env, w2, TenantScope(t));
  }

  /** Look for a row, and create one if there is none: what comes next depends on the answer. */
  function FindOrCreate(filter: (RowId, Row) -> bool, row: Row): Prog {
    Then(Op(Base, _ => Find(filter)),
         If((past: History) => past != [] && past[|past| - 1] == Ok(map[]), Op(Base, _ => Create(row)), Skip))
  }

  /** In tenant t's context the row is created exactly when t has none like it, whatever others have. */
  lemma FoundOrCreated(t: Uuid, filter: (RowId, Row) -> bool, row: Row, w: World)
    requires row.tenant == t
    ensures
      var (w', st) := Exec(RunIn(TenantScope(t), FindOrCreate(filter, row)), OUTSIDE, w);
      && st == Completed
      && w'.db == if exists id :: id in w.db && w.db[id].tenant == t && filter(id, w.db[id]) then w.db
                  else w.db[w.next + 1 := row]
  {
    var env := OUTSIDE.(ctx := Some(TenantScope(t)));
    var find, create := Op(Base, (past: History) => Find(filter)), Op(Base, (past: History) => Create(row));
    FindStep(t, filter, env, w);
    var w1 := Exec(find, env, w).0;
    CreateStep(t, row, env, w1);
    var test := (past: History) => past != [] && past[|past| - 1] == Ok(map[]);
    assert Exec(If(test, create, Skip), env, w1) ==
      if w1.hist[|w1.hist| - 1] == Ok(map[]) then Exec(create, env, w1) else (w1, Completed);
  }

  lemma FindStep(t: Uuid, filter: (RowId, Row) -> bool, env: Env, w: World)
    requires env == OUTSIDE.(ctx := Some(TenantScope(t)))
    ensures
      var (w1, st) := Exec(Op(Base, _ => Find(filter)), env, w);
      && st == Completed && w1.db == w.db && w1.next == w.next + 1 && w1.hist != []
      && (w1.hist[|w1.hist| - 1] == Ok(map[]) <==>
            !exists id :: id in w.db && w.db[id].tenant == t && filter(id, w.db[id]))
  {
    var find := Op(Base, (past: History) => Find(filter));
    OperationMeans(Base, find.query, env, w, TenantScope(t));
    var found := Exec(find, env, w).0.hist[|w.hist|].value;
    assert found == map[] <==> forall id :: id in w.db && w.db[id].tenant == t ==> !filter(id, w.db[id]);
  }

  lemma CreateStep(t: Uuid, row: Row, env: Env, w: World)
    requires env == OUTSIDE.(ctx := Some(TenantScope(t))) && row.tenant == t
    ensures
      var (w1, st) := Exec(Op(Base, _ => Create(row)), env, w);
      st == Completed && w1.db == w.db[w.next := row]
  {
    OperationMeans(Base, (past: History) => Create(row), env, w, TenantScope(t));
  }

  /** Rows of one tenant, created one after the other. */
  function AllNew(db: Database, next: RowId, row: Row, n: nat): Database
    decreases n
  {
    if n == 0 then db else AllNew(db[next := row], next + 1, row, n - 1)
  }

  lemma {:induction false} AllNewAre(db: Database, next: RowId, row: Row, n: nat, id: RowId)
    ensures id in AllNew(db, next, row, n) <==> id in db || next <= id < next + n
    ensures id in AllNew(db, next, row, n) ==>
      AllNew(db, next, row, n)[id] == if next <= id < next + n then row else db[id]
    decreases n
  {
    if n > 0 { AllNewAre(db[next := row], next + 1, row, n - 1, id); }
  }

  lemma {:induction false} LoopCreates(n: nat, row: Row, env: Env, w: World, ctx: TenantContext)
    requires Serves(Tx, env, w, ctx) && Reaches(ctx, row)
    ensures
      var (w', st) := ExecLoop(n, Op(Tx, _ => Create(row)), env, w);
      && st == Completed && w'.db == AllNew(w.db, w.next, row, n) && !w'.doomed
      && |w'.hist| == |w.hist| + n && w.hist <= w'.hist
      && (forall i :: |w.hist| <= i < |w'.hist| ==> w'.hist[i].Ok?)
    decreases n
  {
    if n > 0 {
      var create := Op(Tx, (past: History) => Create(row));
      OperationMeans(Tx, create.query, env, w, ctx);
      LoopCreates(n - 1, row, env, Exec(create, env, w).0, ctx);
    }
  }

  /** A block that creates a row as many times as the answers so far tell it to: all of them are stored. */
  lemma BlockCreatesAll(kind: AtomicKind, times: History -> nat, row: Row, env: Env, w: World, id: RowId)
    requires kind == AtomicSystem || kind == AtomicTenant(row.tenant)
    ensures
      var (w', st) := Exec(Atomic(kind, Repeat(times, Op(Tx, _ => Create(row)))), env, w);
      var n := times(w.hist);
      && st == Completed
      && (id in w'.db <==> id in w.db || w.next <= id < w.next + n)
      && (id in w'.db ==> w'.db[id] == if w.next <= id < w.next + n then row else w.db[id])
  {
    var c := AtomicContext(kind);
    var body := Repeat(times, Op(Tx, (past: History) => Create(row)));
    var inner := Env(Some(c), true, Some(SettingsOf(c)));
    var begun := w.Emit(Begin(SettingsOf(c))).(doomed := false);
    BlockCommitsIff(kind, body, env, w);
    LoopCreates(times(w.hist), row, inner, begun, c);
    var ended := Exec(body, inner, begun).0;
    assert Err(PolicyViolation) !in ended.hist[|w.hist|..];
    AllNewAre(w.db, w.next, row, times(w.hist), id);
  }

  /** The documented trap, in full: whatever the context, an intercepted delete marks no row. */
  lemma InterceptedDeleteNeverLands(h: Handle, filter: (RowId, Row) -> bool, many: bool, env: Env, w: World)
    ensures
      var (after, st) := ExecOp(h, InterceptedDelete(filter, many), env, w);
      after.db == w.db && (!many ==> st.Threw?)
  {
    assert Matching(NO_SETTINGS, w.db, filter) == map[];
  }

  // ---------------------------------------------------------------------------
  // The engine
  // ---------------------------------------------------------------------------

  /**
   * The module as it runs: two frames that are pushed for the length of a call and popped
   * on every exit, and one connection whose settings SET LOCAL changes until its
   * transaction ends.
   */
  class Engine {
    var storage: Option<TenantContext>
    var inflightStorage: bool
    var db: Database
    var next: RowId
    var hist: History
    var trace: seq<Event>
    var inTx: bool
    var doomed: bool
    var settings: Settings

    ghost predicate Valid()
      reads this
    {
      && (inTx ==> inflightStorage)
      && (!inTx ==> settings == NO_SETTINGS)
    }

    ghost function View(): World
      reads this
    {
      World(db, next, hist, trace, doomed)
    }

    ghost function Frames(): Env
      reads this
    {
      Env(storage, inflightStorage, if inTx then Some(settings) else None)
    }

    constructor (rows: Database, supply: RowId)
      ensures Valid() && View() == World(rows, supply, [], [], false) && Frames() == OUTSIDE
    {
      storage, inflightStorage := None, false;
      db, next, hist, trace := rows, supply, [], [];
      inTx, doomed, settings := false, false, NO_SETTINGS;
    }

    /** BEGIN, then the two SET LOCAL statements. */
    method OpenTransaction(ctx: TenantContext)
      requires !inTx
      modifies this`inTx, this`settings, this`trace, this`doomed
      ensures inTx && !doomed && settings == SettingsOf(ctx)
      ensures trace == old(trace) + [Begin(SettingsOf(ctx))]
    {
      inTx, doomed := true, false;
      settings := settings.(tenant := if ctx.tenantId.None? then "" else ctx.tenantId.value);
      settings := settings.(superAdmin := ctx.isSuperAdmin);
      trace := trace + [Begin(settings)];
    }

    /** The end of a transaction reverts every SET LOCAL. */
    method CloseTransaction(commit: bool, snapshot: Database)
      modifies this`inTx, this`settings, this`trace, this`db
      ensures !inTx && settings == NO_SETTINGS
      ensures trace == old(trace) + [if commit then Commit else Rollback]
      ensures db == if commit then old(db) else snapshot
    {
      inTx, settings := false, NO_SETTINGS;
      if commit {
        trace := trace + [Commit];
      } else {
        db, trace := snapshot, trace + [Rollback];
      }
    }

    method Execute(q: Query, s: Settings, event: Event) returns (o: Outcome)
      modifies this`db, this`next, this`hist, this`trace
      ensures o == Answer(q, s, old(db), old(next)) && db == Effect(q, s, old(db), old(next))
      ensures next == old(next) + 1 && hist == old(hist) + [o] && trace == old(trace) + [event]
    {
      o := Answer(q, s, db, next);
      db := Effect(q, s, db, next);
      next, hist, trace := next + 1, hist + [o], trace + [event];
    }

    /** An operation on a block's own handle. */
    method OnHandle(q: Query) returns (o: Outcome)
      requires Valid()
      modifies this
      ensures Valid() && Frames() == old(Frames())
      ensures (View(), StatusOf(o)) == ExecOp(Tx, q, old(Frames()), old(View()))
    {
      if !inTx || doomed {
        o := Err(if inTx then TxAborted else TxClosed);
        hist := hist + [o];
      } else {
        o := Execute(q, settings, if Escapes(q) then Escaped else Statement(storage));
        doomed := o == Err(PolicyViolation);
      }
    }

    /** An operation the extension wraps in a transaction of its own. */
    method Wrapped(q: Query) returns (o: Outcome)
      requires Valid() && !inflightStorage && storage.Some?
      requires storage.value.tenantId.Some? ==> IsUuid(storage.value.tenantId.value)
      modifies this
      ensures Valid() && Frames() == old(Frames())
      ensures (View(), StatusOf(o)) == ExecOp(Base, q, old(Frames()), old(View()))
    {
      var outerDoomed, before := doomed, db;
      inflightStorage := true;
      OpenTransaction(storage.value);
      o := Execute(q, settings, if Escapes(q) then Escaped else Statement(storage));
      CloseTransaction(o.Ok?, before);
      inflightStorage, doomed := false, outerDoomed;
    }

    /** One model operation, through the extension when it comes from the base client. */
    method Operation(h: Handle, q: Query) returns (st: Status)
      requires Valid()
      modifies this
      ensures Valid() && Frames() == old(Frames())
      ensures (View(), st) == ExecOp(h, q, old(Frames()), old(View()))
    {
      var o: Outcome;
      if h.Tx? {
        o := OnHandle(q);
      } else if inflightStorage {
        o := Execute(q, NO_SETTINGS, Escaped);
      } else if storage.None? {
        o := Err(NoContext);
        hist := hist + [o];
      } else if storage.value.tenantId.Some? && !IsUuid(storage.value.tenantId.value) {
        o := Err(InvalidUuid);
        hist := hist + [o];
      } else {
        o := Wrapped(q);
      }
      st := StatusOf(o);
    }

    /** The engine computes Exec, and every frame it pushed is popped when it returns. */
    method Run(p: Prog) returns (st: Status)
      requires Valid()
      requires Flat(p, inTx)
      modifies this
      ensures Valid() && Frames() == old(Frames())
      ensures (View(), st) == Exec(p, old(Frames()), old(View()))
      decreases p, 0
    {
      match p
      case Skip => st := Completed;
      case Op(h, q) => st := Operation(h, q(hist));
      case Then(a, b) =>
        st := Run(a);
        if st.Completed? { st := Run(b); }
      case If(test, a, b) =>
        if test(hist) { st := Run(a); } else { st := Run(b); }
      case Repeat(times, body) =>
        var n := times(hist);
        st := Completed;
        while n > 0 && st.Completed?
          invariant Valid() && Frames() == old(Frames())
          invariant if st.Completed?
                    then ExecLoop(n, body, Frames(), View()) ==
                      ExecLoop(times(old(hist)), body, old(Frames()), old(View()))
                    else (View(), st) == ExecLoop(times(old(hist)), body, old(Frames()), old(View()))
        {
          st := Run(body);
          n := n - 1;
        }
      case Throw(code) => st := Threw(Thrown(code));
      case Try(body) =>
        st := Run(body);
        if st.Threw? { hist, st := hist + [Err(st.error)], Completed; }
      case RunIn(ctx, body) =>
        var outer := storage;
        storage := Some(ctx);
        st := Run(body);
        storage := outer;
      case Atomic(kind, body) => st := RunAtomic(kind, body);
    }

    /** The atomic helpers: the frames are pushed, the block runs, the frames are popped. */
    method RunAtomic(kind: AtomicKind, body: Prog) returns (st: Status)
      requires Valid()
      requires Flat(Atomic(kind, body), inTx)
      modifies this
      ensures Valid() && Frames() == old(Frames())
      ensures (View(), st) == Exec(Atomic(kind, body), old(Frames()), old(View()))
      decreases body, 2
    {
      if AtomicRefused(kind) {
        st := Threw(InvalidUuid);
      } else {
        var outer, outerFlag := storage, inflightStorage;
        storage, inflightStorage := Some(AtomicContext(kind)), true;
        st := RunBlock(AtomicContext(kind), body);
        storage, inflightStorage := outer, outerFlag;
      }
    }

    /** One transaction around a body. */
    method RunBlock(c: TenantContext, body: Prog) returns (st: Status)
      requires !inTx && inflightStorage && storage == Some(c) && Flat(body, true)
      modifies this
      ensures !inTx && settings == NO_SETTINGS && inflightStorage && storage == Some(c)
      ensures
        var (ended, status) := Exec(body, Env(Some(c), true, Some(SettingsOf(c))),
                                    old(View()).Emit(Begin(SettingsOf(c))).(doomed := false));
        st == status && View() == CloseBlock(old(View()), ended, st)
      decreases body, 1
    {
      var outerDoomed, before := doomed, db;
      OpenTransaction(c);
      assert Frames() == Env(Some(c), true, Some(SettingsOf(c)));
      st := Run(body);
      CloseTransaction(st.Completed? && !doomed, before);
      doomed := outerDoomed;
    }
  }

  /** No atomic block inside another: the engine has one open block at a time. */
  predicate Flat(p: Prog, inBlock: bool) {
    match p
    case Then(a, b) => Flat(a, inBlock) && Flat(b, inBlock)
    case If(_, a, b) => Flat(a, inBlock) && Flat(b, inBlock)
    case Repeat(_, body) => Flat(body, inBlock)
    case Try(body) => Flat(body, inBlock)
    case RunIn(_, body) => Flat(body, inBlock)
    case Atomic(_, body) => !inBlock && Flat(body, true)
    case _ => true
  }
}
