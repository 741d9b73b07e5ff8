/**
 * Gapless numbering: the counter row per key, locked FOR UPDATE inside the transaction that
 * inserts the numbered row (apps/accountant-api/src/mandati/mandati.service.ts, key =
 * tenant and year, and apps/accountant-api/src/comunicazioni/comunicazioni.service.ts, key =
 * tenant). A mandate also claims its quote: it needs the quote accepted, a partial unique
 * index allows one live mandate per quote, and the quote becomes converted.
 *
 * Transactions run at READ COMMITTED and interleave at their statements. A statement that
 * has to wait for a row another transaction holds is simply not enabled until that one ends.
 */
module Numbering {
  import opened Prelude
  import opened Codes

  datatype QuoteState = Bozza | Inviato | Accettato | Rifiutato | Convertito

  /** A numbered row; claim is the quote of a mandate. Soft-deleted rows are not live. */
  datatype Row<K, Q> = Row(key: K, number: nat, claim: Option<Q>, live: bool)

  datatype Phase =
    | Checked            // the quote was read, and it was accepted
    | Ensured            // INSERT ... ON CONFLICT DO NOTHING on the counter
    | Locked(last: nat)  // SELECT last_number ... FOR UPDATE
    | Bumped(next: nat)  // UPDATE of the counter
    | Inserted(next: nat)

  /** A transaction under way; created: the counter row it inserted is its own, uncommitted. */
  datatype Tx<K, Q> = Tx(key: K, claim: Option<Q>, phase: Phase, created: bool)

  type TxId = nat

  /** Committed tables, and the transactions under way. */
  datatype World<!K, !Q> = World(
    counters: map<K, nat>,
    rows: seq<Row<K, Q>>,
    quotes: map<Q, QuoteState>,
    txs: map<TxId, Tx<K, Q>>)

  datatype Event<K, Q> =
    | Begin(id: TxId, key: K, claim: Option<Q>)
    | Ensure(id: TxId)
    | Lock(id: TxId)
    | Bump(id: TxId)
    | Insert(id: TxId)
    | CommitTx(id: TxId)
    | AbortTx(id: TxId)
    | SoftDelete(row: nat)
    | SetQuote(quote: Q, state: QuoteState)

  /** The transaction holds the counter row of its key. */
  predicate Holds<K, Q>(t: Tx<K, Q>) {
    t.created || t.phase.Locked? || t.phase.Bumped? || t.phase.Inserted?
  }

  predicate HeldByOther<K, Q>(w: World<K, Q>, id: TxId, key: K) {
    exists other :: other in w.txs && other != id && w.txs[other].key == key && Holds(w.txs[other])
  }

  predicate PendingClaim<K, Q>(w: World<K, Q>, id: TxId, claim: Option<Q>) {
    && claim.Some?
    && exists other :: other in w.txs && other != id && w.txs[other].phase.Inserted? && w.txs[other].claim == claim
  }

  /** The partial unique index: a committed live row has this claim. */
  predicate ClaimTaken<K, Q>(w: World<K, Q>, claim: Option<Q>) {
    claim.Some? && exists i :: 0 <= i < |w.rows| && w.rows[i].live && w.rows[i].claim == claim
  }

  /** The last number of a key: none used while there is no row. */
  function Last<K, Q>(w: World<K, Q>, key: K): nat {
    if key in w.counters then w.counters[key] else 0
  }

  function InPhase<K, Q>(w: World<K, Q>, id: TxId, phase: Phase): World<K, Q>
    requires id in w.txs
  {
    w.(txs := w.txs[id := w.txs[id].(phase := phase)])
  }

  function Committed<K, Q>(w: World<K, Q>, id: TxId): World<K, Q>
    requires id in w.txs && w.txs[id].phase.Inserted?
  {
    var t := w.txs[id];
    World(w.counters[t.key := t.phase.next],
          w.rows + [Row(t.key, t.phase.next, t.claim, true)],
          if t.claim.Some? then w.quotes[t.claim.value := Convertito] else w.quotes,
          w.txs - {id})
  }

  /** One event; what is not enabled changes nothing. */
  ghost function Step<K, Q>(w: World<K, Q>, e: Event<K, Q>): World<K, Q> {
    match e
    case Begin(id, key, claim) =>
      if id in w.txs || (claim.Some? && (claim.value !in w.quotes || w.quotes[claim.value] != Accettato)) then w
      else w.(txs := w.txs[id := Tx(key, claim, Checked, false)])
    case Ensure(id) =>
      if id !in w.txs || !w.txs[id].phase.Checked? then w
      else if w.txs[id].key in w.counters then InPhase(w, id, Ensured)
      else if HeldByOther(w, id, w.txs[id].key) then w
      else w.(txs := w.txs[id := w.txs[id].(phase := Ensured, created := true)])
    case Lock(id) =>
      if id !in w.txs || !w.txs[id].phase.Ensured? || HeldByOther(w, id, w.txs[id].key) then w
      else InPhase(w, id, Locked(Last(w, w.txs[id].key)))
    case Bump(id) =>
      if id !in w.txs || !w.txs[id].phase.Locked? then w else InPhase(w, id, Bumped(w.txs[id].phase.last + 1))
    case Insert(id) =>
      if id !in w.txs || !w.txs[id].phase.Bumped? || PendingClaim(w, id, w.txs[id].claim) then w
      else if ClaimTaken(w, w.txs[id].claim) then w.(txs := w.txs - {id})
      else InPhase(w, id, Inserted(w.txs[id].phase.next))
    case CommitTx(id) => if id in w.txs && w.txs[id].phase.Inserted? then Committed(w, id) else w
    case AbortTx(id) => w.(txs := w.txs - {id})
    case SoftDelete(i) => if i < |w.rows| then w.(rows := w.rows[i := w.rows[i].(live := false)]) else w
    case SetQuote(q, s) => w.(quotes := w.quotes[q := s])
  }

  ghost function Run<K, Q>(w: World<K, Q>, events: seq<Event<K, Q>>): World<K, Q>
    decreases |events|
  {
    if events == [] then w else Run(Step(w, events[0]), events[1..])
  }

  function EmptyWorld<K, Q>(): World<K, Q> {
    World(map[], [], map[], map[])
  }

  // ---------------------------------------------------------------------------
  // The invariant
  // ---------------------------------------------------------------------------

  ghost predicate HasNumber<K, Q>(rows: seq<Row<K, Q>>, key: K, n: nat) {
    exists i :: 0 <= i < |rows| && rows[i].key == key && rows[i].number == n
  }

  /** The numbers of each key are exactly 1..last, each once, soft-deleted rows included. */
  ghost predicate Gapless<K(!new), Q>(w: World<K, Q>) {
    && (forall i :: 0 <= i < |w.rows| ==>
      w.rows[i].key in w.counters && 1 <= w.rows[i].number <= w.counters[w.rows[i].key])
    && (forall i, j :: 0 <= i < j < |w.rows| && w.rows[i].key == w.rows[j].key ==> w.rows[i].number != w.rows[j].number)
    && (forall key, n :: key in w.counters && 1 <= n <= w.counters[key] ==> HasNumber(w.rows, key, n))
  }

  /** No quote has two live mandates. */
  predicate OneLiveClaim<K, Q>(w: World<K, Q>) {
    forall i, j :: 0 <= i < j < |w.rows| && w.rows[i].live && w.rows[j].live && w.rows[i].claim.Some? ==>
      w.rows[i].claim != w.rows[j].claim
  }

  predicate TxOk<K, Q>(w: World<K, Q>, t: Tx<K, Q>) {
    && (t.created ==> t.key !in w.counters)
    && (t.phase.Checked? ==> !t.created)
    && (!t.phase.Checked? && !t.created ==> t.key in w.counters)
    && match t.phase
       case Checked => true
       case Ensured => true
       case Locked(last) => last == Last(w, t.key)
       case Bumped(next) => next == Last(w, t.key) + 1
       case Inserted(next) => next == Last(w, t.key) + 1 && !ClaimTaken(w, t.claim)
  }

  ghost predicate Inv<K(!new), Q>(w: World<K, Q>) {
    && Gapless(w) && OneLiveClaim(w)
    && (forall id :: id in w.txs ==> TxOk(w, w.txs[id]))
    && (forall i, j :: i in w.txs && j in w.txs && i != j && Holds(w.txs[i]) && Holds(w.txs[j]) ==>
      w.txs[i].key != w.txs[j].key)
    && (forall i, j :: (i in w.txs && j in w.txs && i != j && w.txs[i].phase.Inserted? && w.txs[j].phase.Inserted?
                        && w.txs[i].claim.Some?) ==> w.txs[i].claim != w.txs[j].claim)
  }

  lemma CommitExtends<K(!new), Q>(w: World<K, Q>, id: TxId)
    requires Inv(w) && id in w.txs && w.txs[id].phase.Inserted?
    ensures Gapless(Committed(w, id)) && OneLiveClaim(Committed(w, id))
  {
    assert TxOk(w, w.txs[id]);
    CommitUsesAll(w, id);
    CommitNumbersDiffer(w, id);
    CommitClaimsOnce(w, id);
  }

  /** The new number is past all those of its key. */
  lemma CommitNumbersDiffer<K(!new), Q>(w: World<K, Q>, id: TxId)
    requires Inv(w) && id in w.txs && w.txs[id].phase.Inserted?
    ensures
      var w' := Committed(w, id);
      && (forall i :: 0 <= i < |w'.rows| ==>
        w'.rows[i].key in w'.counters && 1 <= w'.rows[i].number <= w'.counters[w'.rows[i].key])
      && (forall i, j :: 0 <= i < j < |w'.rows| && w'.rows[i].key == w'.rows[j].key ==>
        w'.rows[i].number != w'.rows[j].number)
  {
    assert TxOk(w, w.txs[id]);
  }

  lemma CommitClaimsOnce<K(!new), Q>(w: World<K, Q>, id: TxId)
    requires Inv(w) && id in w.txs && w.txs[id].phase.Inserted?
    ensures OneLiveClaim(Committed(w, id))
  {
    var t := w.txs[id];
    assert TxOk(w, t);
    forall i | 0 <= i < |w.rows| && w.rows[i].live && w.rows[i].claim.Some? ensures w.rows[i].claim != t.claim {
      assert t.claim.Some? ==> !ClaimTaken(w, t.claim);
    }
  }

  lemma CommitUsesAll<K(!new), Q>(w: World<K, Q>, id: TxId)
    requires Inv(w) && id in w.txs && w.txs[id].phase.Inserted?
    ensures
      var w' := Committed(w, id);
      forall key, n :: key in w'.counters && 1 <= n <= w'.counters[key] ==> HasNumber(w'.rows, key, n)
  {
    var w', t := Committed(w, id), w.txs[id];
    assert TxOk(w, t);
    forall key, n | key in w'.counters && 1 <= n <= w'.counters[key] ensures HasNumber(w'.rows, key, n) {
      if key == t.key && n == t.phase.next {
        assert w'.rows[|w.rows|].key == key && w'.rows[|w.rows|].number == n;
      } else {
        assert HasNumber(w.rows, key, n);
        var i :| 0 <= i < |w.rows| && w.rows[i].key == key && w.rows[i].number == n;
        assert w'.rows[i] == w.rows[i];
      }
    }
  }

  lemma CommitClaims<K(!new), Q>(w: World<K, Q>, id: TxId, claim: Option<Q>)
    requires id in w.txs && w.txs[id].phase.Inserted? && ClaimTaken(Committed(w, id), claim)
    ensures claim == w.txs[id].claim || ClaimTaken(w, claim)
  {
    var rows := Committed(w, id).rows;
    var i :| 0 <= i < |rows| && rows[i].live && rows[i].claim == claim;
    if i < |w.rows| {
      assert w.rows[i] == rows[i];
    }
  }

  lemma CommitKeeps<K(!new), Q>(w: World<K, Q>, id: TxId)
    requires Inv(w) && id in w.txs && w.txs[id].phase.Inserted?
    ensures Inv(Committed(w, id))
  {
    var w', t := Committed(w, id), w.txs[id];
    CommitExtends(w, id);
    forall other | other in w'.txs ensures TxOk(w', w'.txs[other]) {
      var u := w.txs[other];
      assert TxOk(w, u) && w'.txs[other] == u;
      if ClaimTaken(w', u.claim) { CommitClaims(w, id, u.claim); }
    }
  }

  lemma SoftDeleteKeeps<K(!new), Q>(w: World<K, Q>, i: nat)
    requires Inv(w) && i < |w.rows|
    ensures Inv(Step(w, SoftDelete(i)))
  {
    var w' := Step(w, SoftDelete(i));
    assert forall j :: 0 <= j < |w.rows| ==> w'.rows[j].key == w.rows[j].key && w'.rows[j].number == w.rows[j].number
                                             && w'.rows[j].claim == w.rows[j].claim
                                             && (w'.rows[j].live ==> w.rows[j].live);
    forall key, n | HasNumber(w.rows, key, n) ensures HasNumber(w'.rows, key, n) {
      var j :| 0 <= j < |w.rows| && w.rows[j].key == key && w.rows[j].number == n;
      assert w'.rows[j].key == key && w'.rows[j].number == n;
    }
    assert forall c :: ClaimTaken(w', c) ==> ClaimTaken(w, c);
  }

  /** A transaction moves on: it may hold the counter row, or a claim, only if nobody else does. */
  lemma TxMovesKeeps<K(!new), Q(!new)>(w: World<K, Q>, id: TxId, t: Tx<K, Q>)
    requires Inv(w) && TxOk(w, t)
    requires Holds(t) ==> !HeldByOther(w, id, t.key)
    requires t.phase.Inserted? ==> !PendingClaim(w, id, t.claim)
    ensures Inv(w.(txs := w.txs[id := t]))
  {
    var w' := w.(txs := w.txs[id := t]);
    assert w'.rows == w.rows && w'.counters == w.counters;
    assert forall c :: ClaimTaken(w', c) == ClaimTaken(w, c);
  }

  lemma HolderIsAlone<K(!new), Q>(w: World<K, Q>, id: TxId)
    requires Inv(w) && id in w.txs && Holds(w.txs[id])
    ensures !HeldByOther(w, id, w.txs[id].key)
  {
  }

  /** Everything but the transactions and the quotes unchanged, and no transaction new. */
  lemma FewerTxsKeeps<K(!new), Q(!new)>(w: World<K, Q>, w': World<K, Q>)
    requires Inv(w) && w'.counters == w.counters && w'.rows == w.rows
    requires forall id :: id in w'.txs ==> id in w.txs && w'.txs[id] == w.txs[id]
    ensures Inv(w')
  {
    assert forall c :: ClaimTaken(w', c) == ClaimTaken(w, c);
  }

  lemma InsertKeeps<K(!new), Q(!new)>(w: World<K, Q>, id: TxId)
    requires Inv(w)
    ensures Inv(Step(w, Insert(id)))
  {
    if id in w.txs && w.txs[id].phase.Bumped? && !PendingClaim(w, id, w.txs[id].claim) {
      if ClaimTaken(w, w.txs[id].claim) {
        FewerTxsKeeps(w, Step(w, Insert(id)));
      } else {
        assert TxOk(w, w.txs[id]);
        HolderIsAlone(w, id);
        TxMovesKeeps(w, id, w.txs[id].(phase := Inserted(w.txs[id].phase.next)));
      }
    }
  }

  lemma EnsureKeeps<K(!new), Q(!new)>(w: World<K, Q>, id: TxId)
    requires Inv(w)
    ensures Inv(Step(w, Ensure(id)))
  {
    if id in w.txs && w.txs[id].phase.Checked? {
      assert TxOk(w, w.txs[id]);
      if w.txs[id].key in w.counters {
        TxMovesKeeps(w, id, w.txs[id].(phase := Ensured));
      } else if !HeldByOther(w, id, w.txs[id].key) {
        TxMovesKeeps(w, id, w.txs[id].(phase := Ensured, created := true));
      }
    }
  }

  lemma CountingKeeps<K(!new), Q(!new)>(w: World<K, Q>, e: Event<K, Q>)
    requires Inv(w) && (e.Lock? || e.Bump?)
    ensures Inv(Step(w, e))
  {
    if e.id in w.txs && Step(w, e) != w {
      var t := w.txs[e.id];
      assert TxOk(w, t);
      if e.Lock? {
        TxMovesKeeps(w, e.id, t.(phase := Locked(Last(w, t.key))));
      } else {
        HolderIsAlone(w, e.id);
        TxMovesKeeps(w, e.id, t.(phase := Bumped(t.phase.last + 1)));
      }
    }
  }

  lemma StepKeeps<K(!new), Q(!new)>(w: World<K, Q>, e: Event<K, Q>)
    requires Inv(w)
    ensures Inv(Step(w, e))
  {
    match e
    case Begin(id, key, claim) =>
      if Step(w, e) != w { TxMovesKeeps(w, id, Tx(key, claim, Checked, false)); }
    case Ensure(id) => EnsureKeeps(w, id);
    case Lock(_) => CountingKeeps(w, e);
    case Bump(_) => CountingKeeps(w, e);
    case Insert(id) => InsertKeeps(w, id);
    case CommitTx(id) => if id in w.txs && w.txs[id].phase.Inserted? { CommitKeeps(w, id); }
    case AbortTx(_) => FewerTxsKeeps(w, Step(w, e));
    case SoftDelete(i) => if i < |w.rows| { SoftDeleteKeeps(w, i); }
    case SetQuote(_, _) => FewerTxsKeeps(w, Step(w, e));
  }

  /**
   * Under any interleaving of creations, with aborts and unique violations anywhere: the
   * numbers of each key stay exactly 1..last_number, each used once, and no quote ever has
   * two live mandates.
   */
  lemma {:induction false} AlwaysGapless<K(!new), Q(!new)>(w: World<K, Q>, events: seq<Event<K, Q>>)
    requires Inv(w)
    ensures Inv(Run(w, events))
    decreases |events|
  {
    if events != [] {
      StepKeeps(w, events[0]);
      AlwaysGapless(Step(w, events[0]), events[1..]);
    }
  }

  /** From empty tables on. */
  lemma GaplessFromTheStart<K(!new), Q(!new)>(events: seq<Event<K, Q>>)
    ensures Gapless(Run(EmptyWorld<K, Q>(), events)) && OneLiveClaim(Run(EmptyWorld<K, Q>(), events))
  {
    AlwaysGapless(EmptyWorld<K, Q>(), events);
  }

  // ---------------------------------------------------------------------------
  // Codes
  // ---------------------------------------------------------------------------

  type TenantId = nat
  type PreventivoId = nat

  datatype TenantYear = TenantYear(tenant: TenantId, anno: nat)

  /** Two mandates of a tenant never carry the same code, live or deleted, past 9999 too. */
  lemma RdlCodesDistinct(events: seq<Event<TenantYear, PreventivoId>>, i: nat, j: nat)
    requires
      var rows := Run(EmptyWorld<TenantYear, PreventivoId>(), events).rows;
      i < j < |rows| && rows[i].key.tenant == rows[j].key.tenant
    ensures
      var rows := Run(EmptyWorld<TenantYear, PreventivoId>(), events).rows;
      RdlCodice(rows[i].key.anno, rows[i].number) != RdlCodice(rows[j].key.anno, rows[j].number)
  {
    GaplessFromTheStart(events);
    var rows := Run(EmptyWorld<TenantYear, PreventivoId>(), events).rows;
    if RdlCodice(rows[i].key.anno, rows[i].number) == RdlCodice(rows[j].key.anno, rows[j].number) {
      RdlInjective(rows[i].key.anno, rows[i].number, rows[j].key.anno, rows[j].number);
    }
  }

  /**
   * A number that is about to be inserted is new for its key, so the unique index on
   * communication codes (partial or not) is never violated: E_COM_CODICE_EXISTS cannot occur.
   */
  lemma NextNumberIsNew<K(!new), Q(!new)>(events: seq<Event<K, Q>>, id: TxId, i: nat)
    requires
      var w := Run(EmptyWorld<K, Q>(), events);
      && id in w.txs && w.txs[id].phase.Bumped?
      && i < |w.rows| && w.rows[i].key == w.txs[id].key
    ensures
      var w := Run(EmptyWorld<K, Q>(), events);
      ComCodice(w.rows[i].number) != ComCodice(w.txs[id].phase.next)
  {
    var w := Run(EmptyWorld<K, Q>(), events);
    AlwaysGapless(EmptyWorld<K, Q>(), events);
    assert TxOk(w, w.txs[id]);
    if ComCodice(w.rows[i].number) == ComCodice(w.txs[id].phase.next) {
      ComInjective(w.rows[i].number, w.txs[id].phase.next);
    }
  }

  // ---------------------------------------------------------------------------
  // The service, one transaction with nothing in between
  // ---------------------------------------------------------------------------

  function Solo<K, Q>(id: TxId, key: K, claim: Option<Q>): seq<Event<K, Q>> {
    [Begin(id, key, claim), Ensure(id), Lock(id), Bump(id), Insert(id), CommitTx(id)]
  }

  datatype CreateError = QuoteNotFound | QuoteNotAccepted | ClaimExists

  lemma ClaimTakenMeans<K, Q>(w: World<K, Q>, claim: Option<Q>)
    ensures ClaimTaken(w, claim) <==> claim.Some? && exists row :: row in w.rows && row.live && row.claim == claim
  {
  }

  class NumberedTable<K(==, !new), Q(==, !new)> {
    var counters: map<K, nat>
    var rows: seq<Row<K, Q>>
    var quotes: map<Q, QuoteState>

    ghost function View(): World<K, Q>
      reads this
    {
      World(counters, rows, quotes, map[])
    }

    constructor ()
      ensures View() == EmptyWorld<K, Q>()
    {
      counters, rows, quotes := map[], [], map[];
    }

    /**
     * The transaction of createFromPreventivo, and of create for a communication (no claim):
     * check, counter, insert, quote; an error rolls everything back.
     */
    method Create(key: K, claim: Option<Q>) returns (r: Result<nat, CreateError>)
      modifies this
      ensures r.Ok? ==>
        && (claim.Some? ==> claim.value in old(quotes) && old(quotes)[claim.value] == Accettato)
        && !ClaimTaken(old(View()), claim)
        && r.value == Last(old(View()), key) + 1
        && counters == old(counters)[key := r.value]
        && rows == old(rows) + [Row(key, r.value, claim, true)]
        && quotes == if claim.Some? then old(quotes)[claim.value := Convertito] else old(quotes)
      ensures r.Err? ==> View() == old(View())
      ensures r == Err(QuoteNotFound) <==> claim.Some? && claim.value !in old(quotes)
      ensures r == Err(QuoteNotAccepted) <==>
        claim.Some? && claim.value in old(quotes) && old(quotes)[claim.value] != Accettato
      ensures r == Err(ClaimExists) <==>
        && claim.Some? && claim.value in old(quotes) && old(quotes)[claim.value] == Accettato
        && exists row :: row in old(rows) && row.live && row.claim == claim
      ensures r.Ok? <==>
        claim.None? || (&& claim.value in old(quotes) && old(quotes)[claim.value] == Accettato
                        && forall row :: row in old(rows) && row.live ==> row.claim != claim)
      ensures forall id: TxId :: View() == Run(old(View()), Solo(id, key, claim))
    {
      SoloIsCreateForAll(View(), key, claim);
      ClaimTakenMeans(View(), claim);
      if claim.Some? {
        if claim.value !in quotes { return Err(QuoteNotFound); }
        if quotes[claim.value] != Accettato { return Err(QuoteNotAccepted); }
      }
      var before := counters;
      if key !in counters {
        counters := counters[key := 0];
      }
      var next := counters[key] + 1;
      counters := counters[key := next];
      var taken := exists i :: 0 <= i < |rows| && rows[i].live && rows[i].claim == claim;
      if claim.Some? && taken {
        counters := before;
        return Err(ClaimExists);
      }
      rows := rows + [Row(key, next, claim, true)];
      if claim.Some? {
        quotes := quotes[claim.value := Convertito];
      }
      r := Ok(next);
    }
  }

  /** With nobody else about, and the quote accepted, the first four statements just happen. */
  lemma SoloBumps<K(!new), Q(!new)>(w: World<K, Q>, id: TxId, key: K, claim: Option<Q>)
    requires w.txs == map[]
    requires claim.Some? ==> claim.value in w.quotes && w.quotes[claim.value] == Accettato
    ensures
      Step(Step(Step(Step(w, Begin(id, key, claim)), Ensure(id)), Lock(id)), Bump(id))
        == w.(txs := map[id := Tx(key, claim, Bumped(Last(w, key) + 1), key !in w.counters)])
  {
    var w1 := Step(w, Begin(id, key, claim));
    assert w1 == w.(txs := map[id := Tx(key, claim, Checked, false)]);
    var w2 := Step(w1, Ensure(id));
    assert w2 == w.(txs := map[id := Tx(key, claim, Ensured, key !in w.counters)]);
    var w3 := Step(w2, Lock(id));
    assert w3 == w.(txs := map[id := Tx(key, claim, Locked(Last(w, key)), key !in w.counters)]);
  }

  /** The insert, and then the commit; or the unique index refuses it and all is rolled back. */
  lemma SoloEnds<K(!new), Q(!new)>(w: World<K, Q>, id: TxId, t: Tx<K, Q>)
    requires w.txs == map[id := t] && t.phase.Bumped?
    ensures
      Step(Step(w, Insert(id)), CommitTx(id)) ==
        if ClaimTaken(w, t.claim) then w.(txs := map[])
        else World(w.counters[t.key := t.phase.next], w.rows + [Row(t.key, t.phase.next, t.claim, true)],
                   if t.claim.Some? then w.quotes[t.claim.value := Convertito] else w.quotes, map[])
  {
    var w1 := Step(w, Insert(id));
    if ClaimTaken(w, t.claim) {
      assert w1 == w.(txs := map[]);
    } else {
      assert w1 == w.(txs := map[id := t.(phase := Inserted(t.phase.next))]);
      assert w1.txs - {id} == map[];
    }
  }

  lemma IdleIsIdle<K(!new), Q(!new)>(w: World<K, Q>, id: TxId)
    requires w.txs == map[]
    ensures Step(w, Ensure(id)) == Step(w, Lock(id)) == Step(w, Bump(id)) == Step(w, Insert(id)) ==
      Step(w, CommitTx(id)) == w
  {
  }

  lemma SoloUnrolled<K(!new), Q(!new)>(w: World<K, Q>, id: TxId, key: K, claim: Option<Q>)
    ensures
      Run(w, Solo(id, key, claim))
        == Step(Step(Step(Step(Step(Step(w, Begin(id, key, claim)), Ensure(id)), Lock(id)), Bump(id)), Insert(id)),
          CommitTx(id))
  {
    var es := Solo<K, Q>(id, key, claim);
    var w1 := Step(w, es[0]);
    var w2 := Step(w1, es[1]);
    var w3 := Step(w2, es[2]);
    var w4 := Step(w3, es[3]);
    var w5 := Step(w4, es[4]);
    assert es[1..][1..] == es[2..] && es[2..][1..] == es[3..] && es[3..][1..] == es[4..] &&
      es[4..][1..] == es[5..] && es[5..][1..] == [];
    assert Run(w, es) == Run(w1, es[1..]) == Run(w2, es[2..]) == Run(w3, es[3..]);
    assert Run(w3, es[3..]) == Run(w4, es[4..]) == Run(w5, es[5..]);
  }

  /** What Create does is a run of the protocol, so it keeps all that every run keeps. */
  lemma SoloIsCreate<K(!new), Q(!new)>(w: World<K, Q>, id: TxId, key: K, claim: Option<Q>)
    requires w.txs == map[]
    ensures
      var refused := claim.Some? && (claim.value !in w.quotes || w.quotes[claim.value] != Accettato);
      Run(w, Solo(id, key, claim)) ==
        if refused || ClaimTaken(w, claim) then w
        else World(w.counters[key := Last(w, key) + 1], w.rows + [Row(key, Last(w, key) + 1, claim, true)],
                   if claim.Some? then w.quotes[claim.value := Convertito] else w.quotes, map[])
  {
    SoloUnrolled(w, id, key, claim);
    if claim.Some? && (claim.value !in w.quotes || w.quotes[claim.value] != Accettato) {
      assert Step(w, Begin(id, key, claim)) == w;
      IdleIsIdle(w, id);
    } else {
      SoloBumps(w, id, key, claim);
      var t := Tx(key, claim, Bumped(Last(w, key) + 1), key !in w.counters);
      var w4 := w.(txs := map[id := t]);
      SoloEnds(w4, id, t);
      assert ClaimTaken(w4, claim) == ClaimTaken(w, claim);
    }
  }

  lemma SoloIsCreateForAll<K(!new), Q(!new)>(w: World<K, Q>, key: K, claim: Option<Q>)
    requires w.txs == map[]
    ensures
      var refused := claim.Some? && (claim.value !in w.quotes || w.quotes[claim.value] != Accettato);
      forall id: TxId ::
        Run(w, Solo(id, key, claim)) ==
          if refused || ClaimTaken(w, claim) then w
          else World(w.counters[key := Last(w, key) + 1], w.rows + [Row(key, Last(w, key) + 1, claim, true)],
                     if claim.Some? then w.quotes[claim.value := Convertito] else w.quotes, map[])
  {
    forall id: TxId { SoloIsCreate(w, id, key, claim); }
  }

  /** An event of one transaction, other than its commit. */
  predicate Uncommitted<K, Q>(e: Event<K, Q>, id: TxId) {
    !e.CommitTx? && !e.SoftDelete? && !e.SetQuote? && e.id == id
  }

  /** A creation that is rolled back, after any of its statements, leaves everything as it was. */
  lemma {:induction false} RollbackLeavesNothing<K(!new), Q(!new)>(w: World<K, Q>, events: seq<Event<K, Q>>, id: TxId)
    requires forall i :: 0 <= i < |events| ==> Uncommitted(events[i], id)
    ensures Step(Run(w, events), AbortTx(id)) == w.(txs := w.txs - {id})
    decreases |events|
  {
    if events != [] {
      assert Uncommitted(events[0], id);
      var w1 := Step(w, events[0]);
      assert w1.txs - {id} == w.txs - {id} && w1 == w.(txs := w1.txs);
      RollbackLeavesNothing(w1, events[1..], id);
    }
  }

  lemma DeleteFreesTheClaim<K(!new), Q(!new)>(w: World<K, Q>, i: nat)
    requires OneLiveClaim(w) && i < |w.rows| && w.rows[i].live && w.rows[i].claim.Some?
    ensures
      var freed := Step(w, SoftDelete(i));
      && freed == w.(rows := freed.rows) && |freed.rows| == |w.rows|
      && (forall j :: 0 <= j < |w.rows| ==> freed.rows[j] == if j == i then w.rows[i].(live := false) else w.rows[j])
      && ClaimTaken(w, w.rows[i].claim) && !ClaimTaken(freed, w.rows[i].claim)
  {
  }

  /**
   * Deleting a quote's mandate frees the index, and keeps the number. But the quote stays
   * converted: another mandate of it is made exactly when its state is accepted by then.
   */
  lemma DeletedMandateFreesItsQuote<K(!new), Q(!new)>(w: World<K, Q>, i: nat, id: TxId, key: K, q: Q)
    requires Inv(w) && w.txs == map[] && i < |w.rows| && w.rows[i].live && w.rows[i].claim == Some(q) && q in w.quotes
    ensures
      var freed := Step(w, SoftDelete(i));
      Run(freed, Solo(id, key, Some(q))) ==
        if w.quotes[q] != Accettato then freed
        else World(w.counters[key := Last(w, key) + 1], freed.rows + [Row(key, Last(w, key) + 1, Some(q), true)],
                   w.quotes[q := Convertito], map[])
  {
    DeleteFreesTheClaim(w, i);
    SoloIsCreate(Step(w, SoftDelete(i)), id, key, Some(q));
  }

  /** While it is there, no other is made. */
  lemma LiveMandateHolds<K(!new), Q(!new)>(w: World<K, Q>, i: nat, id: TxId, key: K)
    requires w.txs == map[] && i < |w.rows| && w.rows[i].live && w.rows[i].claim.Some?
    ensures Run(w, Solo(id, key, w.rows[i].claim)) == w
  {
    assert ClaimTaken(w, w.rows[i].claim);
    SoloIsCreate(w, id, key, w.rows[i].claim);
  }

  /** Once it is deleted and the quote accepted again, one is. */
  lemma AcceptedAgain<K(!new), Q(!new)>(w: World<K, Q>, i: nat, id: TxId, key: K, q: Q)
    requires OneLiveClaim(w) && w.txs == map[] && i < |w.rows| && w.rows[i].live && w.rows[i].claim == Some(q)
    ensures
      var freed := Step(w, SoftDelete(i));
      Run(Step(freed, SetQuote(q, Accettato)), Solo(id, key, Some(q))).rows ==
        freed.rows + [Row(key, Last(w, key) + 1, Some(q), true)]
  {
    DeleteFreesTheClaim(w, i);
    AcceptedIsFree(Step(w, SoftDelete(i)), id, key, q);
  }

  lemma AcceptedIsFree<K(!new), Q(!new)>(w: World<K, Q>, id: TxId, key: K, q: Q)
    requires w.txs == map[] && !ClaimTaken(w, Some(q))
    ensures
      var accepted := Step(w, SetQuote(q, Accettato));
      && accepted.rows == w.rows
      && Run(accepted, Solo(id, key, Some(q))).rows == w.rows + [Row(key, Last(w, key) + 1, Some(q), true)]
  {
    var accepted := Step(w, SetQuote(q, Accettato));
    assert ClaimTaken(accepted, Some(q)) == ClaimTaken(w, Some(q));
    SoloIsCreate(accepted, id, key, Some(q));
  }
}
