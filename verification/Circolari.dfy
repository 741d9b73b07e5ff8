/**
 * Circulars (apps/accountant-api/src/circolari/circolari.service.ts): the lifecycle, the
 * clients' portal, and the report of who has read what. The portal and the report decide
 * with two separate computations who a circular is for.
 *
 * A request first reads and checks, then writes; the flag `atomic` says whether the two
 * always happen together, or requests may come in between. One tenant; its users are fixed.
 */
module Circolari {
  import opened Prelude

  type CircolareId = nat
  type UserId = nat
  type AziendaId = nat
  type Time = nat

  datatype Tipo = Tutti | Azienda | Utente

  datatype Destinatario = Destinatario(tipo: Tipo, azienda: Option<AziendaId>)

  datatype Stato = Bozza | Pubblicata | Archiviata

  datatype Circolare = Circolare(stato: Stato, deleted: bool, destinatari: seq<Destinatario>, richiedeConferma: bool,
                                 pubblicataIl: Option<Time>, testo: string)

  datatype Lettura = Lettura(lettaAt: Time, confermataAt: Option<Time>)

  datatype User = User(id: UserId, cliente: bool, azienda: Option<AziendaId>)

  /** What a request has decided to write, after its reads and checks. */
  datatype Plan =
    | Insert(id: CircolareId, row: Circolare)
    | Edit(id: CircolareId, change: Change)
    | Move(id: CircolareId, stato: Stato)
    | Trash(id: CircolareId)
    | MarkLetta(id: CircolareId, user: UserId)
    | Confirm(id: CircolareId, user: UserId)
    | Nothing

  /** The fields an update carries. */
  datatype Change = Change(destinatari: Option<seq<Destinatario>>, richiedeConferma: Option<bool>,
    testo: Option<string>)

  datatype Request =
    | Create(id: CircolareId, destinatari: seq<Destinatario>, richiedeConferma: bool, testo: string)
    | Update(id: CircolareId, change: Change)
    | Publish(id: CircolareId)
    | Archive(id: CircolareId)
    | SoftDelete(id: CircolareId)
    | GetForCliente(user: UserId, id: CircolareId)
    | ConfermaCliente(user: UserId, id: CircolareId)

  datatype Error =
    | NotFound | NotEditable | NotBozza | NotPubblicata | NotReportable | NoConferma | NotACliente
    | UtenteUnsupported | AziendaRequired | TuttiNoAzienda | AziendaNotFound | IdTaken

  datatype World = World(
    users: seq<User>,
    aziende: set<AziendaId>,
    circolari: map<CircolareId, Circolare>,
    letture: map<(CircolareId, UserId), Lettura>,
    pending: map<nat, Plan>)

  // ---------------------------------------------------------------------------
  // Who a circular is for, twice
  // ---------------------------------------------------------------------------

  /** The portal: clienteWhere on one circular. */
  predicate VisibleTo(c: Circolare, azienda: AziendaId) {
    !c.deleted && c.stato == Pubblicata &&
    exists d :: d in c.destinatari && (d.tipo == Tutti || (d.tipo == Azienda && d.azienda == Some(azienda)))
  }

  predicate HasTutti(c: Circolare) {
    exists d :: d in c.destinatari && d.tipo == Tutti
  }

  function AziendaIds(destinatari: seq<Destinatario>): seq<AziendaId> {
    if destinatari == [] then []
    else (if destinatari[0].tipo == Azienda && destinatari[0].azienda.Some? then [destinatari[0].azienda.value]
      else []) + AziendaIds(destinatari[1..])
  }

  /** The report: the where on users. */
  predicate Atteso(c: Circolare, u: User) {
    u.cliente && (HasTutti(c) || (u.azienda.Some? && u.azienda.value in AziendaIds(c.destinatari)))
  }

  lemma {:induction false} AziendaIdsAre(destinatari: seq<Destinatario>, a: AziendaId)
    ensures a in AziendaIds(destinatari) <==> Destinatario(Azienda, Some(a)) in destinatari
  {
    if destinatari == [] {
    } else {
      AziendaIdsAre(destinatari[1..], a);
      assert destinatari[0].tipo == Azienda && destinatari[0].azienda == Some(a) <==>
        destinatari[0] == Destinatario(Azienda, Some(a));
    }
  }

  /**
   * For a published circular, the report expects exactly the clients who see it in the
   * portal; and, of those without a company, who see nothing there, all when it is for all.
   */
  lemma ReportAgreesWithPortal(c: Circolare, u: User)
    requires c.stato == Pubblicata && !c.deleted
    ensures Atteso(c, u) <==> u.cliente && if u.azienda.Some? then VisibleTo(c, u.azienda.value) else HasTutti(c)
  {
    if u.azienda.Some? {
      AziendaIdsAre(c.destinatari, u.azienda.value);
      forall d | d in c.destinatari && d.tipo == Azienda && d.azienda == Some(u.azienda.value)
        ensures d == Destinatario(Azienda, Some(u.azienda.value))
      {
      }
    }
  }

  // ---------------------------------------------------------------------------
  // Requests
  // ---------------------------------------------------------------------------

  predicate Found(w: World, id: CircolareId) {
    id in w.circolari && !w.circolari[id].deleted
  }

  /** The first rule a list of recipients breaks, in their order. */
  function FirstBroken(destinatari: seq<Destinatario>): Option<Error> {
    if destinatari == [] then None
    else
      var d := destinatari[0];
      if d.tipo == Utente then Some(UtenteUnsupported)
      else if d.tipo == Azienda && d.azienda.None? then Some(AziendaRequired)
      else if d.tipo == Tutti && d.azienda.Some? then Some(TuttiNoAzienda)
      else FirstBroken(destinatari[1..])
  }

  function Invalid(aziende: set<AziendaId>, destinatari: seq<Destinatario>): Option<Error> {
    if FirstBroken(destinatari).Some? then FirstBroken(destinatari)
    else if exists a :: a in AziendaIds(destinatari) && a !in aziende then Some(AziendaNotFound)
    else None
  }

  /** The user of a portal request: a client, with a company. */
  predicate PortalUser(w: World, user: UserId, azienda: AziendaId) {
    User(user, true, Some(azienda)) in w.users
  }

  predicate CanEnter(u: User, user: UserId) {
    u.id == user && u.cliente && u.azienda.Some?
  }

  function Visible(w: World, user: UserId, id: CircolareId): Result<(), Error> {
    if !(exists u :: u in w.users && CanEnter(u, user)) then Err(NotACliente)
    else if id !in w.circolari then Err(NotFound)
    else if exists u :: u in w.users && CanEnter(u, user) && VisibleTo(w.circolari[id], u.azienda.value) then Ok(())
    else Err(NotFound)
  }

  /** The reads and the checks of a request. */
  function Check(w: World, q: Request): Result<Plan, Error> {
    match q
    case Create(id, destinatari, richiede, testo) =>
      if Invalid(w.aziende, destinatari).Some? then Err(Invalid(w.aziende, destinatari).value)
      else if id in w.circolari then Err(IdTaken)
      else Ok(Insert(id, Circolare(Bozza, false, destinatari, richiede, None, testo)))
    case Update(id, change) =>
      if !Found(w, id) then Err(NotFound)
      else if w.circolari[id].stato != Bozza then Err(NotEditable)
      else if change.destinatari.Some? && Invalid(w.aziende, change.destinatari.value).Some?
        then Err(Invalid(w.aziende, change.destinatari.value).value)
      else Ok(Edit(id, change))
    case Publish(id) =>
      if !Found(w, id) then Err(NotFound) else if w.circolari[id].stato != Bozza then Err(NotBozza)
        else Ok(Move(id, Pubblicata))
    case Archive(id) =>
      if !Found(w, id) then Err(NotFound) else if w.circolari[id].stato != Pubblicata then Err(NotPubblicata)
        else Ok(Move(id, Archiviata))
    case SoftDelete(id) =>
      if !Found(w, id) then Err(NotFound) else if w.circolari[id].stato != Bozza then Err(NotBozza) else Ok(Trash(id))
    case GetForCliente(user, id) =>
      if Visible(w, user, id).Err? then Err(Visible(w, user, id).error) else Ok(MarkLetta(id, user))
    case ConfermaCliente(user, id) =>
      if Visible(w, user, id).Err? then Err(Visible(w, user, id).error)
      else if !w.circolari[id].richiedeConferma then Err(NoConferma)
      else if (id, user) in w.letture && w.letture[(id, user)].confermataAt.Some? then Ok(Nothing)
      else Ok(Confirm(id, user))
  }

  function Edited(c: Circolare, ch: Change): Circolare {
    c.(destinatari := if ch.destinatari.Some? then ch.destinatari.value else c.destinatari,
       richiedeConferma := if ch.richiedeConferma.Some? then ch.richiedeConferma.value else c.richiedeConferma,
       testo := if ch.testo.Some? then ch.testo.value else c.testo)
  }

  function Moved(c: Circolare, stato: Stato, now: Time): Circolare {
    if stato == Pubblicata then c.(stato := stato, pubblicataIl := Some(now)) else c.(stato := stato)
  }

  /** The writes, which look at nothing again. */
  function Apply(w: World, plan: Plan, now: Time): World {
    match plan
    case Insert(id, row) => if id in w.circolari then w else w.(circolari := w.circolari[id := row])
    case Edit(id, change) =>
      if id !in w.circolari then w else w.(circolari := w.circolari[id := Edited(w.circolari[id], change)])
    case Move(id, stato) =>
      if id !in w.circolari then w else w.(circolari := w.circolari[id := Moved(w.circolari[id], stato, now)])
    case Trash(id) =>
      if id !in w.circolari then w else w.(circolari := w.circolari[id := w.circolari[id].(deleted := true)])
    case MarkLetta(id, user) =>
      if (id, user) in w.letture then w else w.(letture := w.letture[(id, user) := Lettura(now, None)])
    case Confirm(id, user) =>
      if (id, user) in w.letture
        then w.(letture := w.letture[(id, user) := w.letture[(id, user)].(confermataAt := Some(now))])
      else w.(letture := w.letture[(id, user) := Lettura(now, Some(now))])
    case Nothing => w
  }

  datatype Event = Whole(request: Request, now: Time) | Begin(task: nat, request: Request)
    | Resume(task: nat, now: Time)

  function Step(atomic: bool, w: World, e: Event): World {
    match e
    case Whole(q, now) =>
      var plan := Check(w, q);
      if plan.Ok? then Apply(w, plan.value, now) else w
    case Begin(task, q) =>
      var plan := Check(w, q);
      if atomic || task in w.pending || plan.Err? then w else w.(pending := w.pending[task := plan.value])
    case Resume(task, now) =>
      if atomic || task !in w.pending then w else Apply(w.(pending := w.pending - {task}), w.pending[task], now)
  }

  function Run(atomic: bool, w: World, events: seq<Event>): World
    decreases |events|
  {
    if events == [] then w else Run(atomic, Step(atomic, w, events[0]), events[1..])
  }

  function Start(users: seq<User>, aziende: set<AziendaId>): World {
    World(users, aziende, map[], map[], map[])
  }

  // ---------------------------------------------------------------------------
  // What the rules say
  // ---------------------------------------------------------------------------

  /** Recipients are accepted exactly when each is everybody, or a company of the tenant. */
  lemma RecipientsAccepted(aziende: set<AziendaId>, destinatari: seq<Destinatario>)
    ensures Invalid(aziende, destinatari).None? <==>
      forall d :: d in destinatari ==>
        d == Destinatario(Tutti, None) || (d.tipo == Azienda && d.azienda.Some? && d.azienda.value in aziende)
    ensures Invalid(aziende, destinatari) == Some(AziendaNotFound) ==>
      exists a :: Destinatario(Azienda, Some(a)) in destinatari && a !in aziende
  {
    NothingBroken(destinatari);
    forall a ensures a in AziendaIds(destinatari) <==> Destinatario(Azienda, Some(a)) in destinatari {
      AziendaIdsAre(destinatari, a);
    }
    if FirstBroken(destinatari).None? {
      forall d | d in destinatari && d.tipo == Azienda ensures d == Destinatario(Azienda, Some(d.azienda.value)) {
      }
    }
  }

  /** A recipient that breaks no rule of form. */
  predicate WellFormed(d: Destinatario) {
    d.tipo != Utente && (d.tipo == Azienda <==> d.azienda.Some?)
  }

  /** The answer is about the first recipient that breaks one. */
  lemma {:induction false} NothingBroken(destinatari: seq<Destinatario>)
    ensures FirstBroken(destinatari).None? <==> forall d :: d in destinatari ==> WellFormed(d)
    ensures FirstBroken(destinatari).Some? ==>
      exists i :: 0 <= i < |destinatari| && (forall j :: 0 <= j < i ==> WellFormed(destinatari[j])) &&
        Broken(destinatari[i], FirstBroken(destinatari).value)
  {
    if destinatari != [] {
      var rest := destinatari[1..];
      NothingBroken(rest);
      assert forall d :: d in destinatari <==> d == destinatari[0] || d in rest;
      if WellFormed(destinatari[0]) && FirstBroken(rest).Some? {
        var i :| 0 <= i < |rest| && (forall j :: 0 <= j < i ==> WellFormed(rest[j])) &&
          Broken(rest[i], FirstBroken(rest).value);
        assert destinatari[i + 1] == rest[i];
        assert forall j :: 0 < j < i + 1 ==> destinatari[j] == rest[j - 1];
      } else if !WellFormed(destinatari[0]) {
        assert Broken(destinatari[0], FirstBroken(destinatari).value);
      }
    }
  }

  /** The rule a recipient breaks, by its error. */
  predicate Broken(d: Destinatario, e: Error) {
    match e
    case UtenteUnsupported => d.tipo == Utente
    case AziendaRequired => d.tipo == Azienda && d.azienda.None?
    case TuttiNoAzienda => d.tipo == Tutti && d.azienda.Some?
    case _ => false
  }

  /**
   * Who may open a circular: a client of a company, when the circular is there, published, and
   * has a recipient that is everybody or that company.
   */
  lemma WhoMayOpen(w: World, user: UserId, id: CircolareId)
    ensures Visible(w, user, id).Ok? <==>
      exists u :: u in w.users && u.id == user && u.cliente && u.azienda.Some? &&
        id in w.circolari && w.circolari[id].stato == Pubblicata && !w.circolari[id].deleted &&
        exists d :: d in w.circolari[id].destinatari && (d.tipo == Tutti || d == Destinatario(Azienda, u.azienda))
    ensures Visible(w, user, id) == Err(NotACliente) <==>
      forall u :: u in w.users && u.id == user ==> !u.cliente || u.azienda.None?
    ensures Visible(w, user, id).Err? ==> Visible(w, user, id).error in {NotACliente, NotFound}
  {
    forall u | u in w.users && id in w.circolari && u.azienda.Some?
      ensures VisibleTo(w.circolari[id], u.azienda.value) <==>
        && w.circolari[id].stato == Pubblicata && !w.circolari[id].deleted
        && exists d :: d in w.circolari[id].destinatari && (d.tipo == Tutti || d == Destinatario(Azienda, u.azienda))
    {
      OpenTo(w.circolari[id], u.azienda.value);
    }
    if u :| u in w.users && u.id == user && u.cliente && u.azienda.Some? {
      assert CanEnter(u, user);
    }
  }

  lemma OpenTo(c: Circolare, azienda: AziendaId)
    ensures VisibleTo(c, azienda) <==>
      && c.stato == Pubblicata && !c.deleted
      && exists d :: d in c.destinatari && (d.tipo == Tutti || d == Destinatario(Azienda, Some(azienda)))
  {
    if d :| d in c.destinatari && d.tipo == Azienda && d.azienda == Some(azienda) {
      assert d == Destinatario(Azienda, Some(azienda));
    }
  }

  /** A request about a circular, and its number. */
  predicate About(q: Request, id: CircolareId) {
    !q.Create? && q.id == id
  }

  /** Once deleted, a circular is nobody's: every request about it fails, and no run changes it. */
  lemma {:induction false} DeletedIsGone(w: World, events: seq<Event>, id: CircolareId)
    requires id in w.circolari && w.circolari[id].deleted
    ensures forall q :: About(q, id) ==> Check(w, q).Err?
    ensures id in Run(true, w, events).circolari && Run(true, w, events).circolari[id] == w.circolari[id]
    decreases |events|
  {
    forall q | About(q, id) ensures Check(w, q).Err? {
      if q.GetForCliente? || q.ConfermaCliente? { WhoMayOpen(w, q.user, id); }
    }
    if events != [] {
      var w1 := Step(true, w, events[0]);
      assert id in w1.circolari && w1.circolari[id] == w.circolari[id] by {
        if events[0].Whole? && Check(w, events[0].request).Ok? { assert !About(events[0].request, id); }
      }
      DeletedIsGone(w1, events[1..], id);
    }
  }

  /** A whole edit: only of a draft, and what it carries replaces what was there, field by field. */
  lemma WholeUpdateMeans(w: World, id: CircolareId, change: Change, now: Time)
    ensures
      var w' := Step(true, w, Whole(Update(id, change), now));
      if id in w.circolari && !w.circolari[id].deleted && w.circolari[id].stato == Bozza
         && (change.destinatari.Some? ==> Invalid(w.aziende, change.destinatari.value).None?)
      then
        && w' == w.(circolari := w'.circolari) && w'.circolari.Keys == w.circolari.Keys
        && (forall other :: other in w.circolari && other != id ==> w'.circolari[other] == w.circolari[other])
        && var before, after := w.circolari[id], w'.circolari[id];
           && after.stato == Bozza && !after.deleted && after.pubblicataIl == before.pubblicataIl
           && after.destinatari == (if change.destinatari.Some? then change.destinatari.value else before.destinatari)
           && after.richiedeConferma ==
             (if change.richiedeConferma.Some? then change.richiedeConferma.value else before.richiedeConferma)
           && after.testo == (if change.testo.Some? then change.testo.value else before.testo)
      else w' == w
  {
  }

  // ---------------------------------------------------------------------------
  // Readers are expected
  // ---------------------------------------------------------------------------

  /** The circular is for the user. */
  predicate MeantFor(users: seq<User>, c: Circolare, user: UserId) {
    exists u :: u in users && u.id == user && Atteso(c, u)
  }

  predicate Expected(w: World, id: CircolareId, user: UserId) {
    id in w.circolari && MeantFor(w.users, w.circolari[id], user)
  }

  /** Every read is of a circular that was published, by somebody its report expects. */
  predicate ReadersExpected(w: World) {
    forall key :: key in w.letture ==>
      && Expected(w, key.0, key.1) && w.circolari[key.0].stato != Bozza
      && (w.letture[key].confermataAt.Some? ==> w.circolari[key.0].richiedeConferma)
  }

  lemma VisibleIsExpected(w: World, user: UserId, id: CircolareId)
    requires Visible(w, user, id).Ok?
    ensures Expected(w, id, user) && w.circolari[id].stato == Pubblicata
  {
    var u :| u in w.users && CanEnter(u, user) && VisibleTo(w.circolari[id], u.azienda.value);
    ReportAgreesWithPortal(w.circolari[id], u);
  }

  lemma CircolareChangesKeep(w: World, id: CircolareId, c: Circolare)
    requires ReadersExpected(w)
    requires forall user :: (id, user) in w.letture ==>
      id in w.circolari && c.stato != Bozza && c.destinatari == w.circolari[id].destinatari &&
        c.richiedeConferma == w.circolari[id].richiedeConferma
    ensures ReadersExpected(w.(circolari := w.circolari[id := c]))
  {
    var w' := w.(circolari := w.circolari[id := c]);
    forall key | key in w'.letture ensures Expected(w', key.0, key.1) && w'.circolari[key.0].stato != Bozza {
      assert Expected(w, key.0, key.1);
      var u :| u in w.users && u.id == key.1 && Atteso(w.circolari[key.0], u);
      assert (key.0, key.1) == key;
      assert Atteso(w'.circolari[key.0], u);
    }
  }

  lemma CheckedLosesNobody(w: World, q: Request)
    requires ReadersExpected(w) && Check(w, q).Ok?
    ensures !LosesReader(w, Check(w, q).value)
  {
    match q
    case GetForCliente(user, id) => VisibleIsExpected(w, user, id);
    case ConfermaCliente(user, id) => VisibleIsExpected(w, user, id);
    case _ =>
  }

  lemma WholeKeeps(w: World, q: Request, now: Time)
    requires ReadersExpected(w)
    ensures ReadersExpected(Step(true, w, Whole(q, now)))
  {
    if Check(w, q).Ok? {
      CheckedLosesNobody(w, q);
      ApplyLosesIff(w, Check(w, q).value, now);
    }
  }

  /** Over any run of whole requests. */
  lemma {:induction false} ReadersAlwaysExpected(w: World, events: seq<Event>)
    requires ReadersExpected(w)
    ensures ReadersExpected(Run(true, w, events))
    decreases |events|
  {
    if events != [] {
      if events[0].Whole? {
        WholeKeeps(w, events[0].request, events[0].now);
      }
      ReadersAlwaysExpected(Step(true, w, events[0]), events[1..]);
    }
  }

  function Narrowing(): Change {
    Change(Some([Destinatario(Azienda, Some(2))]), None, None)
  }

  /** An update checked while a draft, and written after the publication and the first read. */
  function LateUpdate(): seq<Event> {
    [Whole(Create(0, [Destinatario(Azienda, Some(1))], false, "testo"), 0), Begin(0, Update(0, Narrowing())),
     Whole(Publish(0), 1), Whole(GetForCliente(7, 0), 2), Resume(0, 3)]
  }

  lemma UnrollFive(atomic: bool, w: World, es: seq<Event>)
    requires |es| == 5
    ensures Run(atomic, w, es) ==
      Step(atomic, Step(atomic, Step(atomic, Step(atomic, Step(atomic, w, es[0]), es[1]), es[2]), es[3]), es[4])
  {
    assert es[1..][1..] == es[2..] && es[2..][1..] == es[3..] && es[3..][1..] == es[4..] && es[4..][1..] == [];
    var w1 := Step(atomic, w, es[0]);
    var w2 := Step(atomic, w1, es[1]);
    var w3 := Step(atomic, w2, es[2]);
    var w4 := Step(atomic, w3, es[3]);
    assert Run(atomic, w, es) == Run(atomic, w1, es[1..]) == Run(atomic, w2, es[2..]) == Run(atomic, w3, es[3..]);
    assert Run(atomic, w3, es[3..]) == Run(atomic, w4, es[4..]) == Step(atomic, w4, es[4]);
  }

  const AD_UNA := Destinatario(Azienda, Some(1))

  function InStato(stato: Stato, pubblicataIl: Option<Time>): Circolare {
    Circolare(stato, false, [AD_UNA], false, pubblicataIl, "testo")
  }

  lemma OneAzienda(a: AziendaId)
    ensures AziendaIds([Destinatario(Azienda, Some(a))]) == [a] && FirstBroken([Destinatario(Azienda, Some(a))]).None?
  {
    var d := Destinatario(Azienda, Some(a));
    assert [d][1..] == [];
    assert AziendaIds([]) == [] && FirstBroken([]).None?;
    assert [a] + [] == [a];
  }

  /** Created, and checked for an update while it is a draft. */
  lemma LateUpdateChecks(w: World)
    requires w == Start([User(7, true, Some(1))], {1, 2})
    ensures
      Step(false, Step(false, w, LateUpdate()[0]), LateUpdate()[1])
        == w.(circolari := map[0 := InStato(Bozza, None)], pending := map[0 := Edit(0, Narrowing())])
  {
    OneAzienda(1);
    OneAzienda(2);
    var w1 := Step(false, w, LateUpdate()[0]);
    assert w1 == w.(circolari := map[0 := InStato(Bozza, None)]);
  }

  lemma LateUpdateLosesAReader()
    ensures !ReadersExpected(Run(false, Start([User(7, true, Some(1))], {1, 2}), LateUpdate()))
  {
    var es, u := LateUpdate(), User(7, true, Some(1));
    var w0 := Start([u], {1, 2});
    LateUpdateChecks(w0);
    var w2 := w0.(circolari := map[0 := InStato(Bozza, None)], pending := map[0 := Edit(0, Narrowing())]);
    var w3 := w2.(circolari := map[0 := InStato(Pubblicata, Some(1))]);
    assert Step(false, w2, es[2]) == w3;
    LateRead(w3);
    var w5 := Step(false, Step(false, w3, es[3]), es[4]);
    UnrollFive(false, w0, es);
    assert !Expected(w5, 0, 7) && (0, 7) in w5.letture;
  }

  /** Read by its first recipient, and then for somebody else only. */
  lemma LateRead(w: World)
    requires w.users == [User(7, true, Some(1))] && w.circolari == map[0 := InStato(Pubblicata, Some(1))]
    requires w.letture == map[] && w.pending == map[0 := Edit(0, Narrowing())]
    ensures
      var last := Step(false, Step(false, w, LateUpdate()[3]), LateUpdate()[4]);
      (0, 7) in last.letture && !Expected(last, 0, 7)
  {
    assert AD_UNA in InStato(Pubblicata, Some(1)).destinatari && w.users[0] in w.users;
    assert VisibleTo(InStato(Pubblicata, Some(1)), 1);
    var read := Step(false, w, LateUpdate()[3]);
    assert read == w.(letture := map[(0, 7) := Lettura(2, None)]);
    var last := Step(false, read, LateUpdate()[4]);
    assert last.circolari[0].destinatari == [Destinatario(Azienda, Some(2))];
    OneAzienda(2);
  }

  /** The report can be trusted exactly when checks and writes of a request are not interleaved. */
  lemma ReadersExpectedIffAtomic(atomic: bool)
    ensures atomic <==> forall users, aziende, events :: ReadersExpected(Run(atomic, Start(users, aziende), events))
  {
    if atomic {
      forall users, aziende, events ensures ReadersExpected(Run(true, Start(users, aziende), events)) {
        ReadersAlwaysExpected(Start(users, aziende), events);
      }
    } else {
      LateUpdateLosesAReader();
    }
  }

  // ---------------------------------------------------------------------------
  // Written once
  // ---------------------------------------------------------------------------

  /** A read stays, with its time; a confirmation, once there, too. */
  predicate ReadsKept(w: World, w': World) {
    forall key :: key in w.letture ==>
      && key in w'.letture && w'.letture[key].lettaAt == w.letture[key].lettaAt
      && (w.letture[key].confermataAt.Some? ==> w'.letture[key].confermataAt == w.letture[key].confermataAt)
  }

  /** A circular only moves on; once published, all but its state is fixed. */
  predicate Onward(c: Circolare, c': Circolare) {
    match c.stato
    case Bozza => true
    case Pubblicata => c' == c || c' == c.(stato := Archiviata)
    case Archiviata => c' == c
  }

  predicate OnwardAll(w: World, w': World) {
    forall id :: id in w.circolari ==> id in w'.circolari && Onward(w.circolari[id], w'.circolari[id])
  }

  /** What a check allows is neither a confirmation made before nor a write to a circular that moved on. */
  lemma CheckedIsSafe(w: World, q: Request, now: Time)
    requires Check(w, q).Ok?
    ensures !MovesConfirmation(w, Check(w, q).value, now) && !StepsBack(w, Check(w, q).value, now)
  {
  }

  lemma StepWritesOnce(w: World, e: Event)
    ensures ReadsKept(w, Step(true, w, e)) && OnwardAll(w, Step(true, w, e))
  {
    if e.Whole? && Check(w, e.request).Ok? {
      CheckedIsSafe(w, e.request, e.now);
      ApplyMovesIff(w, Check(w, e.request).value, e.now);
      ApplyStepsBackIff(w, Check(w, e.request).value, e.now);
    }
  }

  lemma {:induction false} WrittenOnce(w: World, events: seq<Event>)
    ensures ReadsKept(w, Run(true, w, events)) && OnwardAll(w, Run(true, w, events))
    decreases |events|
  {
    if events != [] {
      var w1 := Step(true, w, events[0]);
      StepWritesOnce(w, events[0]);
      WrittenOnce(w1, events[1..]);
    }
  }

  /** The time of a read survives even interleaved requests: the upsert updates nothing. */
  lemma {:induction false} LettaAtWrittenOnce(atomic: bool, w: World, events: seq<Event>, key: (CircolareId, UserId))
    requires key in w.letture
    ensures key in Run(atomic, w, events).letture &&
      Run(atomic, w, events).letture[key].lettaAt == w.letture[key].lettaAt
    decreases |events|
  {
    if events != [] {
      LettaAtWrittenOnce(atomic, Step(atomic, w, events[0]), events[1..], key);
    }
  }

  // ---------------------------------------------------------------------------
  // Interleaved requests: exactly the writes that break something
  // ---------------------------------------------------------------------------

  /** A confirmation written for a read that another request has confirmed since the check. */
  predicate MovesConfirmation(w: World, plan: Plan, now: Time) {
    && plan.Confirm? && (plan.id, plan.user) in w.letture
    && var at := w.letture[(plan.id, plan.user)].confermataAt;
       at.Some? && at.value != now
  }

  /** A write to a circular that has left the state its check saw. */
  predicate StepsBack(w: World, plan: Plan, now: Time) {
    match plan
    case Edit(id, change) =>
      id in w.circolari && w.circolari[id].stato != Bozza && Edited(w.circolari[id], change) != w.circolari[id]
    case Trash(id) => id in w.circolari && w.circolari[id].stato != Bozza && !w.circolari[id].deleted
    case Move(id, stato) =>
      && id in w.circolari
      && var c := w.circolari[id];
         || (c.stato == Archiviata && stato != Archiviata)
         || (c.stato == Pubblicata && (stato == Bozza || (stato == Pubblicata && c.pubblicataIl != Some(now))))
    case _ => false
  }

  /**
   * An edit that leaves out a reader, or stops asking for a confirmation somebody gave; a
   * read or a confirmation of a circular that is no longer for the user, or asks for none.
   */
  predicate LosesReader(w: World, plan: Plan) {
    match plan
    case Edit(id, change) =>
      && id in w.circolari
      && var c := Edited(w.circolari[id], change);
         exists key :: key in w.letture && key.0 == id &&
                       (!MeantFor(w.users, c, key.1) || (w.letture[key].confermataAt.Some? && !c.richiedeConferma))
    case Move(id, stato) => id in w.circolari && stato == Bozza && exists key :: key in w.letture && key.0 == id
    case MarkLetta(id, user) =>
      (id, user) !in w.letture && !(Expected(w, id, user) && w.circolari[id].stato != Bozza)
    case Confirm(id, user) =>
      !(Expected(w, id, user) && w.circolari[id].stato != Bozza && w.circolari[id].richiedeConferma)
    case _ => false
  }

  predicate Lands(w: World, e: Event) {
    e.Resume? && e.task in w.pending
  }

  lemma ApplyMovesIff(w: World, plan: Plan, now: Time)
    ensures ReadsKept(w, Apply(w, plan, now)) <==> !MovesConfirmation(w, plan, now)
  {
    if plan.Confirm? && (plan.id, plan.user) in w.letture {
      var key := (plan.id, plan.user);
      assert Apply(w, plan, now).letture == w.letture[key := w.letture[key].(confermataAt := Some(now))];
    }
  }

  lemma ApplyStepsBackIff(w: World, plan: Plan, now: Time)
    ensures OnwardAll(w, Apply(w, plan, now)) <==> !StepsBack(w, plan, now)
  {
    match plan
    case Edit(id, change) =>
      if id in w.circolari { OneCircolare(w, id, Edited(w.circolari[id], change)); }
    case Move(id, stato) =>
      if id in w.circolari { OneCircolare(w, id, Moved(w.circolari[id], stato, now)); }
    case Trash(id) =>
      if id in w.circolari { OneCircolare(w, id, w.circolari[id].(deleted := true)); }
    case _ =>
  }

  lemma OneCircolare(w: World, id: CircolareId, c: Circolare)
    requires id in w.circolari
    ensures OnwardAll(w, w.(circolari := w.circolari[id := c])) <==> Onward(w.circolari[id], c)
  {
    var w' := w.(circolari := w.circolari[id := c]);
    assert w'.circolari[id] == c;
    forall other | other in w.circolari && other != id ensures Onward(w.circolari[other], w'.circolari[other]) {
      assert w'.circolari[other] == w.circolari[other];
    }
  }

  /** A new version of a circular: its readers must still be expected. */
  lemma ChangedReaders(w: World, id: CircolareId, c: Circolare)
    requires ReadersExpected(w) && id in w.circolari
    ensures ReadersExpected(w.(circolari := w.circolari[id := c])) <==>
      forall key :: key in w.letture && key.0 == id ==>
        && MeantFor(w.users, c, key.1)
        && c.stato != Bozza && (w.letture[key].confermataAt.Some? ==> c.richiedeConferma)
  {
    var w' := w.(circolari := w.circolari[id := c]);
    forall key | key in w.letture
      ensures Expected(w', key.0, key.1) <==>
        if key.0 == id then MeantFor(w.users, c, key.1) else Expected(w, key.0, key.1)
    {
    }
    forall key | key in w.letture && key.0 != id
      ensures w'.circolari[key.0] == w.circolari[key.0] && Expected(w', key.0, key.1)
    {
      assert Expected(w, key.0, key.1);
    }
  }

  /** Moves change only the state and the time of publication. */
  lemma MovedReaders(w: World, id: CircolareId, c: Circolare)
    requires ReadersExpected(w) && id in w.circolari && c.destinatari == w.circolari[id].destinatari
    requires c.richiedeConferma == w.circolari[id].richiedeConferma
    ensures ReadersExpected(w.(circolari := w.circolari[id := c])) <==>
      c.stato != Bozza || forall key :: key in w.letture ==> key.0 != id
  {
    ChangedReaders(w, id, c);
    forall key | key in w.letture && key.0 == id ensures MeantFor(w.users, c, key.1) {
      assert Expected(w, key.0, key.1);
      var u :| u in w.users && u.id == key.1 && Atteso(w.circolari[id], u);
      assert Atteso(c, u);
    }
  }

  lemma NewReader(w: World, id: CircolareId, user: UserId, l: Lettura)
    requires ReadersExpected(w)
    ensures ReadersExpected(w.(letture := w.letture[(id, user) := l])) <==>
      && Expected(w, id, user) && w.circolari[id].stato != Bozza
      && (l.confermataAt.Some? ==> w.circolari[id].richiedeConferma)
  {
    var w' := w.(letture := w.letture[(id, user) := l]);
    assert (id, user) in w'.letture && w'.letture[(id, user)] == l;
    forall key | key in w'.letture && key != (id, user)
      ensures Expected(w', key.0, key.1) && w'.circolari[key.0].stato != Bozza
    {
      assert key in w.letture && w'.letture[key] == w.letture[key];
    }
  }

  lemma EditLosesIff(w: World, id: CircolareId, change: Change)
    requires ReadersExpected(w) && id in w.circolari
    ensures ReadersExpected(w.(circolari := w.circolari[id := Edited(w.circolari[id], change)])) <==>
      !LosesReader(w, Edit(id, change))
  {
    var c := Edited(w.circolari[id], change);
    ChangedReaders(w, id, c);
    forall key | key in w.letture && key.0 == id ensures c.stato != Bozza {
      assert Expected(w, key.0, key.1);
    }
  }

  lemma ApplyLosesIff(w: World, plan: Plan, now: Time)
    requires ReadersExpected(w)
    ensures ReadersExpected(Apply(w, plan, now)) <==> !LosesReader(w, plan)
  {
    match plan
    case Insert(id, row) => if id !in w.circolari { CircolareChangesKeep(w, id, row); }
    case Edit(id, change) => if id in w.circolari { EditLosesIff(w, id, change); }
    case Move(id, stato) => if id in w.circolari { MovedReaders(w, id, Moved(w.circolari[id], stato, now)); }
    case Trash(id) => if id in w.circolari { TrashedReaders(w, id); }
    case MarkLetta(id, user) => if (id, user) !in w.letture { NewReader(w, id, user, Lettura(now, None)); }
    case Confirm(id, user) =>
      NewReader(w, id, user, if (id, user) in w.letture then w.letture[(id, user)].(confermataAt := Some(now))
        else Lettura(now, Some(now)));
    case Nothing =>
  }

  lemma TrashedReaders(w: World, id: CircolareId)
    requires ReadersExpected(w) && id in w.circolari
    ensures ReadersExpected(w.(circolari := w.circolari[id := w.circolari[id].(deleted := true)]))
  {
    var c := w.circolari[id].(deleted := true);
    MovedReaders(w, id, c);
    forall key | key in w.letture && key.0 == id ensures c.stato != Bozza {
      assert Expected(w, key.0, key.1);
    }
  }

  /** Taking a plan off the pending ones changes nothing else. */
  lemma PendingAside(w: World, pending: map<nat, Plan>, plan: Plan, now: Time)
    ensures
      var w' := w.(pending := pending);
      && ReadersExpected(w') == ReadersExpected(w)
      && MovesConfirmation(w', plan, now) == MovesConfirmation(w, plan, now)
      && StepsBack(w', plan, now) == StepsBack(w, plan, now) && LosesReader(w', plan) == LosesReader(w, plan)
  {
    var w' := w.(pending := pending);
    assert w'.users == w.users && w'.circolari == w.circolari && w'.letture == w.letture;
  }

  /** One event moves the time of a confirmation, exactly when it writes one that was made meanwhile. */
  lemma StepMovesIff(w: World, e: Event)
    ensures ReadsKept(w, Step(false, w, e)) <==> !(Lands(w, e) && MovesConfirmation(w, w.pending[e.task], e.now))
  {
    if e.Whole? {
      StepWritesOnce(w, e);
      assert Step(true, w, e) == Step(false, w, e);
    } else if Lands(w, e) {
      PendingAside(w, w.pending - {e.task}, w.pending[e.task], e.now);
      ApplyMovesIff(w.(pending := w.pending - {e.task}), w.pending[e.task], e.now);
    }
  }

  /** One event takes a circular back, exactly when its write finds it past the state it was checked in. */
  lemma StepBackIff(w: World, e: Event)
    ensures OnwardAll(w, Step(false, w, e)) <==> !(Lands(w, e) && StepsBack(w, w.pending[e.task], e.now))
  {
    if e.Whole? {
      StepWritesOnce(w, e);
      assert Step(true, w, e) == Step(false, w, e);
    } else if Lands(w, e) {
      PendingAside(w, w.pending - {e.task}, w.pending[e.task], e.now);
      ApplyStepsBackIff(w.(pending := w.pending - {e.task}), w.pending[e.task], e.now);
    }
  }

  /** One event leaves a reader unexpected, exactly when its write loses one. */
  lemma StepLosesIff(w: World, e: Event)
    requires ReadersExpected(w)
    ensures ReadersExpected(Step(false, w, e)) <==> !(Lands(w, e) && LosesReader(w, w.pending[e.task]))
  {
    if e.Whole? {
      WholeKeeps(w, e.request, e.now);
    } else if Lands(w, e) {
      PendingAside(w, w.pending - {e.task}, w.pending[e.task], e.now);
      ApplyLosesIff(w.(pending := w.pending - {e.task}), w.pending[e.task], e.now);
    } else if e.Begin? {
      PendingAside(w, Step(false, w, e).pending, Nothing, 0);
    }
  }

  datatype Promise = ConfirmationsKept | OnlyOnward | ReadersKnown

  /** What an event does to a promise, from the state before it to the one after. */
  predicate KeptBy(p: Promise, w: World, e: Event) {
    match p
    case ConfirmationsKept => ReadsKept(w, Step(false, w, e))
    case OnlyOnward => OnwardAll(w, Step(false, w, e))
    case ReadersKnown => ReadersExpected(Step(false, w, e))
  }

  /** The write that breaks it. */
  predicate Breaks(p: Promise, w: World, e: Event) {
    Lands(w, e) &&
    match p
    case ConfirmationsKept => MovesConfirmation(w, w.pending[e.task], e.now)
    case OnlyOnward => StepsBack(w, w.pending[e.task], e.now)
    case ReadersKnown => LosesReader(w, w.pending[e.task])
  }

  predicate KeptThroughout(p: Promise, w: World, events: seq<Event>)
    decreases |events|
  {
    events == [] || (KeptBy(p, w, events[0]) && KeptThroughout(p, Step(false, w, events[0]), events[1..]))
  }

  predicate EverBreaks(p: Promise, w: World, events: seq<Event>)
    decreases |events|
  {
    events != [] && (Breaks(p, w, events[0]) || EverBreaks(p, Step(false, w, events[0]), events[1..]))
  }

  /**
   * Over any interleaved run: confirmation times are kept, circulars only move on, and every
   * reader stays expected, each exactly when no write of its breaking kind ever lands.
   */
  lemma {:induction false} KeptThroughoutIff(p: Promise, w: World, events: seq<Event>)
    requires p == ReadersKnown ==> ReadersExpected(w)
    ensures KeptThroughout(p, w, events) <==> !EverBreaks(p, w, events)
    decreases |events|
  {
    if events != [] {
      match p {
        case ConfirmationsKept => StepMovesIff(w, events[0]);
        case OnlyOnward => StepBackIff(w, events[0]);
        case ReadersKnown => StepLosesIff(w, events[0]);
      }
      if KeptBy(p, w, events[0]) {
        KeptThroughoutIff(p, Step(false, w, events[0]), events[1..]);
      }
    }
  }

  /** Two confirmations that both found none: the second moves the time of the first, unless it is the same. */
  lemma ConfirmationMoves(w: World, user: UserId, id: CircolareId, first: Time, second: Time)
    requires Check(w, ConfermaCliente(user, id)) == Ok(Confirm(id, user)) && w.pending == map[]
    ensures
      var overlapped := Step(false, Step(false, w, Begin(0, ConfermaCliente(user, id))),
        Begin(1, ConfermaCliente(user, id)));
      var once := Step(false, overlapped, Resume(0, first));
      && once.letture[(id, user)].confermataAt == Some(first)
      && Step(false, once, Resume(1, second)).letture[(id, user)].confermataAt == Some(second)
      && (Breaks(ConfirmationsKept, once, Resume(1, second)) <==> first != second)
  {
    var w1 := Step(false, w, Begin(0, ConfermaCliente(user, id)));
    assert w1 == w.(pending := map[0 := Confirm(id, user)]);
    assert Check(w1, ConfermaCliente(user, id)) == Ok(Confirm(id, user));
    var w2 := Step(false, w1, Begin(1, ConfermaCliente(user, id)));
    assert w2 == w.(pending := map[0 := Confirm(id, user), 1 := Confirm(id, user)]);
    var w3 := Step(false, w2, Resume(0, first));
    assert w3.pending == map[1 := Confirm(id, user)];
  }

  /** A publication checked twice and written once after the archive: the circular is published again. */
  lemma LatePublishRevives(w: World, id: CircolareId, first: Time, second: Time)
    requires Found(w, id) && w.circolari[id].stato == Bozza && w.pending == map[]
    ensures
      var archived := Step(false, Step(false, Step(false, w, Begin(0, Publish(id))), Whole(Publish(id), first)),
        Whole(Archive(id), first));
      && archived.circolari[id].stato == Archiviata && Breaks(OnlyOnward, archived, Resume(0, second))
      && Step(false, archived, Resume(0, second)).circolari[id].stato == Pubblicata
  {
    var c := w.circolari[id];
    var w1 := Step(false, w, Begin(0, Publish(id)));
    assert w1 == w.(pending := map[0 := Move(id, Pubblicata)]);
    var w2 := Step(false, w1, Whole(Publish(id), first));
    assert w2 == w1.(circolari := w.circolari[id := Moved(c, Pubblicata, first)]);
    var w3 := Step(false, w2, Whole(Archive(id), first));
    assert w3.circolari[id].stato == Archiviata && w3.pending == map[0 := Move(id, Pubblicata)];
  }

  // ---------------------------------------------------------------------------
  // The report
  // ---------------------------------------------------------------------------

  datatype ReportRow = ReportRow(user: UserId, lettaAt: Option<Time>, confermataAt: Option<Time>)

  datatype Report = Report(attesi: nat, letti: nat, confermati: nat, rows: seq<ReportRow>)

  function Recipients(users: seq<User>, c: Circolare): seq<User> {
    if users == [] then [] else if Atteso(c, users[0]) then [users[0]] + Recipients(users[1..], c)
      else Recipients(users[1..], c)
  }

  function RowOf(w: World, id: CircolareId, u: User): ReportRow {
    if (id, u.id) in w.letture
      then ReportRow(u.id, Some(w.letture[(id, u.id)].lettaAt), w.letture[(id, u.id)].confermataAt)
    else ReportRow(u.id, None, None)
  }

  function Rows(w: World, id: CircolareId, recipients: seq<User>): seq<ReportRow> {
    seq(|recipients|, i requires 0 <= i < |recipients| => RowOf(w, id, recipients[i]))
  }

  function Count(f: ReportRow -> bool, rows: seq<ReportRow>): nat {
    if rows == [] then 0 else (if f(rows[0]) then 1 else 0) + Count(f, rows[1..])
  }

  function ReportOf(w: World, id: CircolareId): Result<Report, Error> {
    if !Found(w, id) then Err(NotFound)
    else if w.circolari[id].stato == Bozza then Err(NotReportable)
    else
      var rows := Rows(w, id, Recipients(w.users, w.circolari[id]));
      Ok(Report(|rows|, Count((r: ReportRow) => r.lettaAt.Some?, rows),
        Count((r: ReportRow) => r.confermataAt.Some?, rows), rows))
  }

  /** A draft has no report, nor has what is not there or deleted; everything else has one. */
  lemma ReportRefused(w: World, id: CircolareId)
    ensures ReportOf(w, id) == Err(NotFound) <==> id !in w.circolari || w.circolari[id].deleted
    ensures ReportOf(w, id) == Err(NotReportable) <==>
      id in w.circolari && !w.circolari[id].deleted && w.circolari[id].stato == Bozza
    ensures ReportOf(w, id).Err? ==> ReportOf(w, id).error in {NotFound, NotReportable}
  {
  }

  /** The reads of a circular, and those confirmed. */
  function Readers(w: World, id: CircolareId, confirmed: bool): set<UserId> {
    set key | key in w.letture && key.0 == id && (confirmed ==> w.letture[key].confermataAt.Some?) :: key.1
  }

  predicate DistinctUsers(users: seq<User>) {
    forall i, j :: 0 <= i < j < |users| ==> users[i].id != users[j].id
  }

  function Ids(users: seq<User>): set<UserId> {
    set u | u in users :: u.id
  }

  lemma {:induction false} RecipientsAre(users: seq<User>, c: Circolare)
    requires DistinctUsers(users)
    ensures DistinctUsers(Recipients(users, c)) && forall u :: u in Recipients(users, c) <==> u in users && Atteso(c, u)
  {
    if users == [] {
    } else {
      RecipientsAre(users[1..], c);
      forall u | u in users[1..] ensures u.id != users[0].id {
        var i :| 0 <= i < |users[1..]| && users[1..][i] == u;
        assert users[i + 1] == u;
      }
    }
  }

  lemma IdsSplit(us: seq<User>)
    requires DistinctUsers(us) && us != []
    ensures Ids(us) == Ids(us[1..]) + {us[0].id} && us[0].id !in Ids(us[1..])
  {
    assert forall u :: u in us <==> u == us[0] || u in us[1..];
    forall u | u in us[1..] ensures u.id != us[0].id {
      var i :| 0 <= i < |us[1..]| && us[1..][i] == u;
      assert us[i + 1] == u;
    }
  }

  lemma OneMore(us: seq<User>, s: set<UserId>)
    requires DistinctUsers(us) && us != []
    ensures |s * Ids(us)| == |s * Ids(us[1..])| + if us[0].id in s then 1 else 0
  {
    IdsSplit(us);
    if us[0].id in s {
      assert s * Ids(us) == s * Ids(us[1..]) + {us[0].id};
    } else {
      assert s * Ids(us) == s * Ids(us[1..]);
    }
  }

  /** Counting the rows that pass is counting the users in a set. */
  lemma {:induction false} CountIsCardinality(w: World, id: CircolareId, us: seq<User>, f: ReportRow -> bool,
      s: set<UserId>)
    requires DistinctUsers(us)
    requires forall u :: u in us ==> (f(RowOf(w, id, u)) <==> u.id in s)
    ensures Count(f, Rows(w, id, us)) == |s * Ids(us)|
  {
    if us == [] {
      assert s * Ids(us) == {};
    } else {
      var rest := us[1..];
      CountIsCardinality(w, id, rest, f, s);
      assert Rows(w, id, us)[1..] == Rows(w, id, rest);
      OneMore(us, s);
    }
  }

  lemma ReadersAreRecipients(w: World, id: CircolareId, confirmed: bool)
    requires ReadersExpected(w) && DistinctUsers(w.users) && id in w.circolari
    ensures Readers(w, id, confirmed) <= Ids(Recipients(w.users, w.circolari[id]))
  {
    RecipientsAre(w.users, w.circolari[id]);
    forall user | user in Readers(w, id, confirmed) ensures user in Ids(Recipients(w.users, w.circolari[id])) {
      assert (id, user) in w.letture && Expected(w, id, user);
      var u :| u in w.users && u.id == user && Atteso(w.circolari[id], u);
      assert u in Recipients(w.users, w.circolari[id]);
    }
  }

  lemma CountOfReaders(w: World, id: CircolareId, confirmed: bool, f: ReportRow -> bool)
    requires ReadersExpected(w) && DistinctUsers(w.users) && id in w.circolari
    requires forall u :: f(RowOf(w, id, u)) <==>
      (id, u.id) in w.letture && (confirmed ==> w.letture[(id, u.id)].confermataAt.Some?)
    ensures Count(f, Rows(w, id, Recipients(w.users, w.circolari[id]))) == |Readers(w, id, confirmed)|
  {
    var us, s := Recipients(w.users, w.circolari[id]), Readers(w, id, confirmed);
    RecipientsAre(w.users, w.circolari[id]);
    ReadersAreRecipients(w, id, confirmed);
    forall u | u in us ensures f(RowOf(w, id, u)) <==> u.id in s {
      if f(RowOf(w, id, u)) {
        assert (id, u.id) in w.letture && (id, u.id).1 in s;
      }
    }
    CountIsCardinality(w, id, us, f, s);
    assert s * Ids(us) == s;
  }

  /**
   * After any run of whole requests, the report of a circular counts every read and every
   * confirmation there is, and confirmed <= read <= expected.
   */
  lemma ReportIsComplete(users: seq<User>, aziende: set<AziendaId>, events: seq<Event>, id: CircolareId)
    requires DistinctUsers(users)
    requires ReportOf(Run(true, Start(users, aziende), events), id).Ok?
    ensures
      var w := Run(true, Start(users, aziende), events);
      var report := ReportOf(w, id).value;
      && report.letti == |Readers(w, id, false)| && report.confermati == |Readers(w, id, true)|
      && report.confermati <= report.letti <= report.attesi == |report.rows| == |ExpectedUsers(w, id)|
      && (forall row :: row in report.rows <==>
            && row.user in ExpectedUsers(w, id)
            && var key := (id, row.user);
               && row.lettaAt == (if key in w.letture then Some(w.letture[key].lettaAt) else None)
               && row.confermataAt == if key in w.letture then w.letture[key].confermataAt else None)
  {
    var w := Run(true, Start(users, aziende), events);
    ReadersAlwaysExpected(Start(users, aziende), events);
    UsersStay(Start(users, aziende), events);
    CountOfReaders(w, id, false, (r: ReportRow) => r.lettaAt.Some?);
    CountOfReaders(w, id, true, (r: ReportRow) => r.confermataAt.Some?);
    ReportRowsAre(w, id);
    var report := ReportOf(w, id).value;
    CountsNest(report.rows);
    RowsAreExpected(w, id);
  }

  /** Clients, when it is for everybody or for their company. */
  function ExpectedUsers(w: World, id: CircolareId): set<UserId>
    requires id in w.circolari
  {
    set u | u in w.users && u.cliente &&
            exists d :: d in w.circolari[id].destinatari &&
                        (d.tipo == Tutti || (d.tipo == Azienda && d.azienda.Some? && d.azienda == u.azienda)) :: u.id
  }

  lemma AttesoMeans(c: Circolare, u: User)
    ensures Atteso(c, u) <==>
      u.cliente &&
      exists d :: d in c.destinatari &&
                  (d.tipo == Tutti || (d.tipo == Azienda && d.azienda.Some? && d.azienda == u.azienda))
  {
    if u.azienda.Some? { AziendaIdsAre(c.destinatari, u.azienda.value); }
    if d :| d in c.destinatari && d.tipo == Azienda && d.azienda.Some? && d.azienda == u.azienda {
      assert d == Destinatario(Azienda, u.azienda);
    }
  }

  lemma RowsAreExpected(w: World, id: CircolareId)
    requires DistinctUsers(w.users) && id in w.circolari
    ensures
      var rows := Rows(w, id, Recipients(w.users, w.circolari[id]));
      && |rows| == |ExpectedUsers(w, id)|
      && (forall row :: row in rows <==>
            && row.user in ExpectedUsers(w, id)
            && var key := (id, row.user);
               && row.lettaAt == (if key in w.letture then Some(w.letture[key].lettaAt) else None)
               && row.confermataAt == if key in w.letture then w.letture[key].confermataAt else None)
  {
    var us := Recipients(w.users, w.circolari[id]);
    RecipientsAre(w.users, w.circolari[id]);
    forall u | u in w.users ensures u in us <==> u.id in ExpectedUsers(w, id) {
      AttesoMeans(w.circolari[id], u);
      if u.id in ExpectedUsers(w, id) {
        var v :| v in w.users && v.id == u.id && v.cliente &&
          exists d :: d in w.circolari[id].destinatari &&
                      (d.tipo == Tutti || (d.tipo == Azienda && d.azienda.Some? && d.azienda == v.azienda));
        SameUser(w.users, u, v);
      }
    }
    assert Ids(us) == ExpectedUsers(w, id);
    IdsSize(us);
    var rows := Rows(w, id, us);
    forall row: ReportRow | row.user in Ids(us) && row == RowOf(w, id, User(row.user, true, None)) ensures row in rows {
      var i :| 0 <= i < |us| && us[i].id == row.user;
      assert rows[i] == row;
    }
  }

  lemma SameUser(users: seq<User>, u: User, v: User)
    requires DistinctUsers(users) && u in users && v in users && u.id == v.id
    ensures u == v
  {
    var i :| 0 <= i < |users| && users[i] == u;
    var j :| 0 <= j < |users| && users[j] == v;
    assert i == j;
  }

  lemma {:induction false} IdsSize(us: seq<User>)
    requires DistinctUsers(us)
    ensures |Ids(us)| == |us|
  {
    if us != [] {
      IdsSplit(us);
      IdsSize(us[1..]);
    }
  }

  lemma {:induction false} UsersStay(w: World, events: seq<Event>)
    ensures Run(true, w, events).users == w.users
    decreases |events|
  {
    if events != [] {
      UsersStay(Step(true, w, events[0]), events[1..]);
    }
  }

  lemma ReportRowsAre(w: World, id: CircolareId)
    requires DistinctUsers(w.users) && id in w.circolari
    ensures
      var rows := Rows(w, id, Recipients(w.users, w.circolari[id]));
      && (forall r :: r in rows && r.confermataAt.Some? ==> r.lettaAt.Some?)
      && (forall u :: u in w.users ==> (Atteso(w.circolari[id], u) <==> RowOf(w, id, u) in rows))
  {
    var us := Recipients(w.users, w.circolari[id]);
    RecipientsAre(w.users, w.circolari[id]);
    var rows := Rows(w, id, us);
    forall u | u in w.users ensures Atteso(w.circolari[id], u) <==> RowOf(w, id, u) in rows {
      if u in us {
        var i :| 0 <= i < |us| && us[i] == u;
        assert rows[i] == RowOf(w, id, u);
      }
      if RowOf(w, id, u) in rows {
        var i :| 0 <= i < |us| && rows[i] == RowOf(w, id, u);
        assert us[i].id == u.id && us[i] in us && us[i] in w.users;
        var j :| 0 <= j < |w.users| && w.users[j] == u;
        var k :| 0 <= k < |w.users| && w.users[k] == us[i];
        assert j == k;
      }
    }
  }

  lemma {:induction false} CountsNest(rows: seq<ReportRow>)
    requires forall r :: r in rows && r.confermataAt.Some? ==> r.lettaAt.Some?
    ensures
      Count((r: ReportRow) => r.confermataAt.Some?, rows) <= Count((r: ReportRow) => r.lettaAt.Some?, rows) <= |rows|
  {
    if rows == [] {
    } else {
      CountsNest(rows[1..]);
    }
  }

  // ---------------------------------------------------------------------------
  // The service, one request at a time
  // ---------------------------------------------------------------------------

  lemma {:induction false} FirstBrokenAt(destinatari: seq<Destinatario>, i: nat)
    requires i < |destinatari| && FirstBroken(destinatari[..i]).None?
    ensures FirstBroken([destinatari[i]]).Some? ==> FirstBroken(destinatari) == FirstBroken([destinatari[i]])
    ensures FirstBroken([destinatari[i]]).None? ==> FirstBroken(destinatari[..i + 1]).None?
  {
    if i == 0 {
      assert destinatari[..1] == [destinatari[0]];
    } else {
      assert destinatari[..i][1..] == destinatari[1..][..i - 1] && destinatari[..i + 1][1..] == destinatari[1..][..i];
      FirstBrokenAt(destinatari[1..], i - 1);
    }
  }

  class CircolariService {
    const users: seq<User>
    const aziende: set<AziendaId>
    var circolari: map<CircolareId, Circolare>
    var letture: map<(CircolareId, UserId), Lettura>

    ghost function View(): World
      reads this
    {
      World(users, aziende, circolari, letture, map[])
    }

    ghost predicate Valid()
      reads this
    {
      ReadersExpected(View()) && DistinctUsers(users)
    }

    constructor (users: seq<User>, aziende: set<AziendaId>)
      requires DistinctUsers(users)
      ensures Valid() && View() == Start(users, aziende)
    {
      this.users, this.aziende := users, aziende;
      circolari, letture := map[], map[];
    }

    method ValidateDestinatari(destinatari: seq<Destinatario>) returns (broken: Option<Error>)
      ensures broken == Invalid(aziende, destinatari)
    {
      var aziendaIds: set<AziendaId> := {};
      for i := 0 to |destinatari|
        invariant FirstBroken(destinatari[..i]).None?
        invariant forall a :: a in aziendaIds <==> Destinatario(Azienda, Some(a)) in destinatari[..i]
      {
        var d := destinatari[i];
        FirstBrokenAt(destinatari, i);
        if d.tipo == Utente { return Some(UtenteUnsupported); }
        if d.tipo == Azienda {
          if d.azienda.None? { return Some(AziendaRequired); }
          aziendaIds := aziendaIds + {d.azienda.value};
        }
        if d.tipo == Tutti && d.azienda.Some? { return Some(TuttiNoAzienda); }
        assert d.tipo == Azienda ==> d == Destinatario(Azienda, Some(d.azienda.value));
      }
      assert destinatari[..|destinatari|] == destinatari;
      forall a ensures a in AziendaIds(destinatari) <==> a in aziendaIds { AziendaIdsAre(destinatari, a); }
      broken := if aziendaIds <= aziende then None else Some(AziendaNotFound);
    }

    /** The writes of a request whose checks passed, on the state they were made on. */
    method Write(ghost q: Request, plan: Plan, now: Time)
      requires Valid() && Check(View(), q) == Ok(plan)
      modifies this
      ensures Valid() && View() == Apply(old(View()), plan, now)
    {
      WholeKeeps(View(), q, now);
      match plan
      case Insert(id, row) => if id !in circolari { circolari := circolari[id := row]; }
      case Edit(id, change) => if id in circolari { circolari := circolari[id := Edited(circolari[id], change)]; }
      case Move(id, stato) => if id in circolari { circolari := circolari[id := Moved(circolari[id], stato, now)]; }
      case Trash(id) => if id in circolari { circolari := circolari[id := circolari[id].(deleted := true)]; }
      case MarkLetta(id, user) => if (id, user) !in letture { letture := letture[(id, user) := Lettura(now, None)]; }
      case Confirm(id, user) =>
        var row := if (id, user) in letture then letture[(id, user)].(confermataAt := Some(now))
          else Lettura(now, Some(now));
        letture := letture[(id, user) := row];
      case Nothing =>
    }

    /** create: a draft, under a fresh id. */
    method Create(id: CircolareId, destinatari: seq<Destinatario>, richiedeConferma: bool, testo: string)
        returns (r: Result<(), Error>)
      requires Valid() && id !in circolari
      modifies this
      ensures Valid() && letture == old(letture)
      ensures r == if Invalid(aziende, destinatari).Some? then Err(Invalid(aziende, destinatari).value) else Ok(())
      ensures circolari == if r.Ok?
        then old(circolari)[id := Circolare(Bozza, false, destinatari, richiedeConferma, None, testo)]
          else old(circolari)
    {
      var broken := ValidateDestinatari(destinatari);
      if broken.Some? { return Err(broken.value); }
      Write(Request.Create(id, destinatari, richiedeConferma, testo),
        Insert(id, Circolare(Bozza, false, destinatari, richiedeConferma, None, testo)), 0);
      r := Ok(());
    }

    /** softDelete: only a draft. */
    method SoftDelete(id: CircolareId) returns (r: Result<(), Error>)
      requires Valid()
      modifies this
      ensures Valid() && letture == old(letture)
      ensures r == if !Found(old(View()), id) then Err(NotFound)
        else if old(circolari)[id].stato != Bozza then Err(NotBozza) else Ok(())
      ensures circolari == if r.Ok? then old(circolari)[id := old(circolari)[id].(deleted := true)] else old(circolari)
    {
      if id !in circolari || circolari[id].deleted { return Err(NotFound); }
      if circolari[id].stato != Bozza { return Err(NotBozza); }
      Write(Request.SoftDelete(id), Trash(id), 0);
      r := Ok(());
    }

    /** update: only a draft, recipients replaced as a whole. */
    method Update(id: CircolareId, change: Change) returns (r: Result<(), Error>)
      requires Valid()
      modifies this
      ensures Valid() && letture == old(letture)
      ensures r == if !Found(old(View()), id) then Err(NotFound)
                   else if old(circolari)[id].stato != Bozza then Err(NotEditable)
                   else if change.destinatari.Some? && Invalid(aziende, change.destinatari.value).Some?
                     then Err(Invalid(aziende, change.destinatari.value).value)
                   else Ok(())
      ensures circolari == if r.Ok? then old(circolari)[id := Edited(old(circolari)[id], change)] else old(circolari)
    {
      if id !in circolari || circolari[id].deleted { return Err(NotFound); }
      if circolari[id].stato != Bozza { return Err(NotEditable); }
      if change.destinatari.Some? {
        var broken := ValidateDestinatari(change.destinatari.value);
        if broken.Some? { return Err(broken.value); }
      }
      Write(Request.Update(id, change), Edit(id, change), 0);
      r := Ok(());
    }

    method Publish(id: CircolareId, now: Time) returns (r: Result<(), Error>)
      requires Valid()
      modifies this
      ensures Valid() && letture == old(letture)
      ensures r == if !Found(old(View()), id) then Err(NotFound)
        else if old(circolari)[id].stato != Bozza then Err(NotBozza) else Ok(())
      ensures circolari == if r.Ok?
        then old(circolari)[id := old(circolari)[id].(stato := Pubblicata, pubblicataIl := Some(now))]
          else old(circolari)
    {
      if id !in circolari || circolari[id].deleted { return Err(NotFound); }
      if circolari[id].stato != Bozza { return Err(NotBozza); }
      Write(Request.Publish(id), Move(id, Pubblicata), now);
      r := Ok(());
    }

    method Archive(id: CircolareId) returns (r: Result<(), Error>)
      requires Valid()
      modifies this
      ensures Valid() && letture == old(letture)
      ensures r == if !Found(old(View()), id) then Err(NotFound)
        else if old(circolari)[id].stato != Pubblicata then Err(NotPubblicata) else Ok(())
      ensures circolari == if r.Ok? then old(circolari)[id := old(circolari)[id].(stato := Archiviata)]
        else old(circolari)
    {
      if id !in circolari || circolari[id].deleted { return Err(NotFound); }
      if circolari[id].stato != Pubblicata { return Err(NotPubblicata); }
      Write(Request.Archive(id), Move(id, Archiviata), 0);
      r := Ok(());
    }

    /** getForCliente, for a user the controller has let through: opening marks as read. */
    method GetForCliente(user: UserId, azienda: AziendaId, id: CircolareId, now: Time)
        returns (r: Result<string, Error>)
      requires Valid() && PortalUser(View(), user, azienda)
      modifies this
      ensures Valid() && circolari == old(circolari)
      ensures r == if id in circolari && VisibleTo(circolari[id], azienda) then Ok(circolari[id].testo)
        else Err(NotFound)
      ensures letture == if r.Ok? && (id, user) !in old(letture) then old(letture)[(id, user) := Lettura(now, None)]
        else old(letture)
    {
      if id !in circolari || !VisibleTo(circolari[id], azienda) { return Err(NotFound); }
      OnlyUser(View(), user, azienda, id);
      Write(Request.GetForCliente(user, id), MarkLetta(id, user), now);
      r := Ok(circolari[id].testo);
    }

    /** confermaCliente: the time of the confirmation, the first one's if there was one. */
    method ConfermaCliente(user: UserId, azienda: AziendaId, id: CircolareId, now: Time)
        returns (r: Result<Time, Error>)
      requires Valid() && PortalUser(View(), user, azienda)
      modifies this
      ensures Valid() && circolari == old(circolari)
      ensures r.Err? <==> !(id in circolari && VisibleTo(circolari[id], azienda) && circolari[id].richiedeConferma)
      ensures r.Err? ==> letture == old(letture)
      ensures r.Err? ==> r.error == if id in circolari && VisibleTo(circolari[id], azienda) then NoConferma
        else NotFound
      ensures r.Ok? ==>
        var before := if (id, user) in old(letture) then old(letture)[(id, user)] else Lettura(now, None);
        && r.value == (if before.confermataAt.Some? then before.confermataAt.value else now)
        && letture == old(letture)[(id, user) := Lettura(before.lettaAt, Some(r.value))]
    {
      if id !in circolari || !VisibleTo(circolari[id], azienda) { return Err(NotFound); }
      if !circolari[id].richiedeConferma { return Err(NoConferma); }
      OnlyUser(View(), user, azienda, id);
      if (id, user) in letture && letture[(id, user)].confermataAt.Some? {
        return Ok(letture[(id, user)].confermataAt.value);
      }
      Write(Request.ConfermaCliente(user, id), Confirm(id, user), now);
      r := Ok(now);
    }
  }

  lemma OnlyUser(w: World, user: UserId, azienda: AziendaId, id: CircolareId)
    requires PortalUser(w, user, azienda) && id in w.circolari && VisibleTo(w.circolari[id], azienda)
    ensures Visible(w, user, id).Ok?
  {
    var u := User(user, true, Some(azienda));
    assert u in w.users && CanEnter(u, user) && VisibleTo(w.circolari[id], u.azienda.value);
  }
}
