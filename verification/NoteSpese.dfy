/**
 * The expense-note workflow of one tenant (apps/accountant-api/src/note-spese): notes and
 * attachments, every request cut at its database statements, and any number of requests
 * interleaved at those cuts.
 */
module NoteSpese {
  import opened Prelude

  type UserId = nat
  type NotaId = nat
  type AllegatoId = nat
  type StorageKey = nat
  type AziendaId = nat
  type MandatoId = nat
  type RequestId = nat

  datatype Stato = Bozza | Inviata | Approvata | Respinta
  datatype Metodo = Contanti | CartaAziendale | CartaPersonale | Bonifico
  datatype Tipo = Giustificativo | ScontrinoPos

  /** The fields the workflow reads or writes; totale in hundredths. */
  datatype Nota = Nota(
    userId: UserId, stato: Stato, totale: int, metodo: Metodo,
    aziendaId: Option<AziendaId>, mandatoId: Option<MandatoId>,
    inviataAt: Option<int>, decisaAt: Option<int>, decisaDaId: Option<UserId>, motivoRifiuto: Option<string>)

  datatype Allegato = Allegato(notaId: NotaId, tipo: Tipo, storageKey: StorageKey)

  /** Client companies, and each mandate's company. */
  datatype Registry = Registry(aziende: set<AziendaId>, mandati: map<MandatoId, AziendaId>)

  datatype Transition = Sent(nota: NotaId) | Decided(nota: NotaId, target: Stato)

  datatype Db = Db(
    registry: Registry,
    notes: map<NotaId, Nota>,
    allegati: map<AllegatoId, Allegato>,
    files: set<StorageKey>,
    nextNota: NotaId, nextAllegato: AllegatoId, nextKey: StorageKey,
    history: seq<Transition>)  // the transitions that took place

  datatype Reply =
    | Done | NotFound | NotEditable | NotDeletable | InvalidTransition | AutoDecisione | MotivoRichiesto
    | GiustificativoMancante | ScontrinoMancante
    | AziendaNotFound | MandatoNotFound | MandatoAziendaMismatch
    | AllegatoNotFound | TipoExists | MimeInvalid

  predicate Editable(s: Stato) {
    s.Bozza? || s.Respinta?
  }

  predicate Carta(m: Metodo) {
    m.CartaAziendale? || m.CartaPersonale?
  }

  // ---------------------------------------------------------------------------
  // Rules
  // ---------------------------------------------------------------------------

  function Kinds(db: Db, n: NotaId): set<Tipo> {
    set a | a in db.allegati && db.allegati[a].notaId == n :: db.allegati[a].tipo
  }

  /** The two gates of sending, in the order they are tried. */
  function GateError(totale: int, metodo: Metodo, kinds: set<Tipo>): Option<Reply> {
    if totale > 0 && Giustificativo !in kinds then Some(GiustificativoMancante)
    else if Carta(metodo) && ScontrinoPos !in kinds then Some(ScontrinoMancante)
    else None
  }

  predicate GatesHold(db: Db, n: NotaId)
    requires n in db.notes
  {
    && (db.notes[n].totale > 0 ==> Giustificativo in Kinds(db, n))
    && (Carta(db.notes[n].metodo) ==> ScontrinoPos in Kinds(db, n))
  }

  function MandatoAziendaError(reg: Registry, azienda: Option<AziendaId>, mandato: Option<MandatoId>): Option<Reply> {
    if azienda.Some? && azienda.value !in reg.aziende then Some(AziendaNotFound)
    else if mandato.None? then None
    else if azienda.None? then Some(MandatoAziendaMismatch)
    else if mandato.value !in reg.mandati then Some(MandatoNotFound)
    else if reg.mandati[mandato.value] != azienda.value then Some(MandatoAziendaMismatch)
    else None
  }

  /** A note charged to a mandate is charged to that mandate's company. */
  predicate CompanyFits(reg: Registry, nota: Nota) {
    nota.mandatoId.Some? ==>
      nota.mandatoId.value in reg.mandati && nota.aziendaId == Some(reg.mandati[nota.mandatoId.value])
  }

  predicate IsSpace(c: char) {
    c in {' ', '\t', '\n', '\r'}
  }

  function TrimStart(s: string): (r: string)
    ensures r != "" ==> !IsSpace(r[0])
  {
    if s != "" && IsSpace(s[0]) then TrimStart(s[1..]) else s
  }

  function TrimEnd(s: string): (r: string)
    ensures r <= s && (r != "" ==> !IsSpace(r[|r| - 1]))
  {
    if s != "" && IsSpace(s[|s| - 1]) then TrimEnd(s[..|s| - 1]) else s
  }

  function Trim(s: string): string {
    TrimEnd(TrimStart(s))
  }

  /** undefined leaves a field alone; null clears it. */
  datatype Patch = Patch(
    totale: Option<int>, metodo: Option<Metodo>,
    aziendaId: Option<Option<AziendaId>>, mandatoId: Option<Option<MandatoId>>)

  function Either<T>(o: Option<T>, current: T): T {
    if o.Some? then o.value else current
  }

  function Patched(nota: Nota, p: Patch): Nota {
    nota.(totale := Either(p.totale, nota.totale), metodo := Either(p.metodo, nota.metodo),
          aziendaId := Either(p.aziendaId, nota.aziendaId), mandatoId := Either(p.mandatoId, nota.mandatoId))
  }

  // ---------------------------------------------------------------------------
  // Requests, cut at their statements
  // ---------------------------------------------------------------------------

  datatype Request =
    | Create(user: UserId, totale: int, metodo: Metodo, azienda: Option<AziendaId>, mandato: Option<MandatoId>)
    | Update(user: UserId, nota: NotaId, patch: Patch)
    | Remove(user: UserId, nota: NotaId)
    | Upload(user: UserId, nota: NotaId, tipo: Tipo, mimeAllowed: bool)
    | Detach(user: UserId, nota: NotaId, allegato: AllegatoId)
    | Invia(user: UserId, nota: NotaId)
    | Approva(user: UserId, nota: NotaId)
    | Respingi(user: UserId, nota: NotaId, motivo: string)

  /** What a request still has to do, with all it remembers of what it read. */
  datatype Task =
    | UpdateWrite(user: UserId, nota: NotaId, patch: Patch)
    | RemoveList(user: UserId, nota: NotaId)
    | RemoveDelete(user: UserId, nota: NotaId, keys: set<StorageKey>)
    | UploadInsert(user: UserId, nota: NotaId, tipo: Tipo, key: StorageKey)
    | DetachFind(user: UserId, nota: NotaId, allegato: AllegatoId)
    | DetachDelete(user: UserId, nota: NotaId, allegato: AllegatoId, key: StorageKey)
    | InviaList(user: UserId, nota: NotaId, totale: int, metodo: Metodo)
    | InviaWrite(user: UserId, nota: NotaId)
    | DecideWrite(user: UserId, nota: NotaId, target: Stato, motivo: Option<string>)

  datatype Outcome = Replied(reply: Reply) | Continues(task: Task)

  predicate Owned(db: Db, user: UserId, n: NotaId) {
    n in db.notes && db.notes[n].userId == user
  }

  /** assertOwnEditable. */
  function OwnEditableError(db: Db, user: UserId, n: NotaId): Option<Reply> {
    if !Owned(db, user, n) then Some(NotFound)
    else if !Editable(db.notes[n].stato) then Some(NotEditable)
    else None
  }

  function BeginDecision(db: Db, user: UserId, n: NotaId, target: Stato, motivo: Option<string>): Outcome {
    if n !in db.notes then Replied(NotFound)
    else if db.notes[n].userId == user then Replied(AutoDecisione)
    else if !db.notes[n].stato.Inviata? then Replied(InvalidTransition)
    else Continues(DecideWrite(user, n, target, motivo))
  }

  /** The first statement of a request, with the checks up to it. */
  function Begin(db: Db, r: Request): (Db, Outcome) {
    match r
    case Create(user, totale, metodo, azienda, mandato) =>
      var error := MandatoAziendaError(db.registry, azienda, mandato);
      if error.Some? then (db, Replied(error.value))
      else
        var nota := Nota(user, Bozza, totale, metodo, azienda, mandato, None, None, None, None);
        (db.(notes := db.notes[db.nextNota := nota], nextNota := db.nextNota + 1), Replied(Done))
    case Update(user, n, patch) =>
      var error := OwnEditableError(db, user, n);
      if error.Some? then (db, Replied(error.value))
      else
        var after := Patched(db.notes[n], patch);
        var mismatch := MandatoAziendaError(db.registry, after.aziendaId, after.mandatoId);
        (db, if mismatch.Some? then Replied(mismatch.value) else Continues(UpdateWrite(user, n, patch)))
    case Remove(user, n) =>
      (db, if !Owned(db, user, n) then Replied(NotFound)
           else if !db.notes[n].stato.Bozza? then Replied(NotDeletable)
           else Continues(RemoveList(user, n)))
    case Upload(user, n, tipo, mimeAllowed) =>
      var error := OwnEditableError(db, user, n);
      if error.Some? then (db, Replied(error.value))
      else if !mimeAllowed then (db, Replied(MimeInvalid))
      else (db.(files := db.files + {db.nextKey}, nextKey := db.nextKey + 1),
            Continues(UploadInsert(user, n, tipo, db.nextKey)))
    case Detach(user, n, a) =>
      var error := OwnEditableError(db, user, n);
      (db, if error.Some? then Replied(error.value) else Continues(DetachFind(user, n, a)))
    case Invia(user, n) =>
      (db, if !Owned(db, user, n) then Replied(NotFound)
           else if !Editable(db.notes[n].stato) then Replied(InvalidTransition)
           else Continues(InviaList(user, n, db.notes[n].totale, db.notes[n].metodo)))
    case Approva(user, n) => (db, BeginDecision(db, user, n, Approvata, None))
    case Respingi(user, n, motivo) =>
      (db, if Trim(motivo) == "" then Replied(MotivoRichiesto)
           else BeginDecision(db, user, n, Respinta, Some(Trim(motivo))))
  }

  function AllegatiOf(db: Db, n: NotaId): set<AllegatoId> {
    set a | a in db.allegati && db.allegati[a].notaId == n
  }

  function KeysOf(db: Db, n: NotaId): set<StorageKey> {
    set a | a in db.allegati && db.allegati[a].notaId == n :: db.allegati[a].storageKey
  }

  /** One more statement of a request under way. */
  function Resume(db: Db, t: Task, now: int): (Db, Outcome) {
    match t
    case UpdateWrite(_, n, patch) =>
      if n !in db.notes then (db, Replied(NotFound))
      else (db.(notes := db.notes[n := Patched(db.notes[n], patch)]), Replied(Done))
    case RemoveList(user, n) => (db, Continues(RemoveDelete(user, n, KeysOf(db, n))))
    case RemoveDelete(_, n, keys) =>
      if n !in db.notes then (db, Replied(NotFound))
      else (db.(notes := db.notes - {n}, allegati := db.allegati - AllegatiOf(db, n), files := db.files - keys),
        Replied(Done))
    case UploadInsert(_, n, tipo, key) =>
      if n !in db.notes || tipo in Kinds(db, n)
      then (db.(files := db.files - {key}), Replied(if n in db.notes then TipoExists else NotFound))
      else
        var more := db.allegati[db.nextAllegato := Allegato(n, tipo, key)];
        (db.(allegati := more, nextAllegato := db.nextAllegato + 1), Replied(Done))
    case DetachFind(user, n, a) =>
      (db, if a in db.allegati && db.allegati[a].notaId == n
           then Continues(DetachDelete(user, n, a, db.allegati[a].storageKey)) else Replied(AllegatoNotFound))
    case DetachDelete(_, _, a, key) =>
      if a !in db.allegati then (db, Replied(AllegatoNotFound))
      else (db.(allegati := db.allegati - {a}, files := db.files - {key}), Replied(Done))
    case InviaList(user, n, totale, metodo) =>
      var error := GateError(totale, metodo, Kinds(db, n));
      (db, if error.Some? then Replied(error.value) else Continues(InviaWrite(user, n)))
    case InviaWrite(_, n) =>
      if n in db.notes && Editable(db.notes[n].stato) then
        var sent := db.notes[n].(stato := Inviata, inviataAt := Some(now),
                                 decisaAt := None, decisaDaId := None, motivoRifiuto := None);
        (db.(notes := db.notes[n := sent], history := db.history + [Sent(n)]), Replied(Done))
      else (db, Replied(InvalidTransition))
    case DecideWrite(user, n, target, motivo) =>
      if n in db.notes && db.notes[n].stato.Inviata? then
        var decided := db.notes[n].(stato := target, decisaAt := Some(now),
                                    decisaDaId := Some(user), motivoRifiuto := motivo);
        (db.(notes := db.notes[n := decided], history := db.history + [Decided(n, target)]), Replied(Done))
      else (db, Replied(InvalidTransition))
  }

  // ---------------------------------------------------------------------------
  // Interleavings
  // ---------------------------------------------------------------------------

  datatype World = World(db: Db, tasks: map<RequestId, Task>)

  datatype Event =
    | Start(id: RequestId, request: Request)
    | Advance(id: RequestId, now: int)
    | Crash(id: RequestId)  // the process dies between two statements

  predicate ByAuthor(t: Task) {
    !t.DecideWrite?
  }

  predicate Deciding(r: Request) {
    r.Approva? || r.Respingi?
  }

  /** The requests of this user, as an author, that are under way. */
  function Busy(w: World, user: UserId): set<RequestId> {
    set id | id in w.tasks && ByAuthor(w.tasks[id]) && w.tasks[id].user == user
  }

  function Settled(w: World, id: RequestId, step: (Db, Outcome)): World {
    World(step.0, if step.1.Continues? then w.tasks[id := step.1.task] else w.tasks - {id})
  }

  /** serial: a user's own requests as an author wait for each other. */
  function Step(w: World, e: Event, serial: bool): World {
    match e
    case Start(id, r) =>
      if id in w.tasks || (serial && !Deciding(r) && Busy(w, r.user) != {}) then w
      else Settled(w, id, Begin(w.db, r))
    case Advance(id, now) => if id in w.tasks then Settled(w, id, Resume(w.db, w.tasks[id], now)) else w
    case Crash(id) => w.(tasks := w.tasks - {id})
  }

  function Run(w: World, events: seq<Event>, serial: bool): World
    decreases |events|
  {
    if events == [] then w else Run(Step(w, events[0], serial), events[1..], serial)
  }

  function EmptyWorld(reg: Registry): World {
    World(Db(reg, map[], map[], {}, 0, 0, 0, []), map[])
  }

  // ---------------------------------------------------------------------------
  // Decisions, under arbitrary interleaving
  // ---------------------------------------------------------------------------

  /** What the decision fields must be in each state. */
  predicate FieldsMatch(nota: Nota) {
    match nota.stato
    case Bozza => nota.inviataAt.None? && nota.decisaAt.None? && nota.decisaDaId.None? && nota.motivoRifiuto.None?
    case Inviata => nota.inviataAt.Some? && nota.decisaAt.None? && nota.decisaDaId.None? && nota.motivoRifiuto.None?
    case Approvata =>
      && nota.inviataAt.Some? && nota.decisaAt.Some? && nota.motivoRifiuto.None?
      && nota.decisaDaId.Some? && nota.decisaDaId.value != nota.userId
    case Respinta =>
      && nota.inviataAt.Some? && nota.decisaAt.Some?
      && nota.decisaDaId.Some? && nota.decisaDaId.value != nota.userId
      && nota.motivoRifiuto.Some? && nota.motivoRifiuto.value != ""
  }

  datatype Life = Alive(stato: Stato) | Illegal

  /** The life of note n according to the history: one decision per sending, none after approval. */
  function LifeOf(history: seq<Transition>, n: NotaId): Life {
    if history == [] then Alive(Bozza)
    else
      var before, last := LifeOf(history[..|history| - 1], n), history[|history| - 1];
      if last.nota != n then before
      else match last
        case Sent(_) => if before.Alive? && Editable(before.stato) then Alive(Inviata) else Illegal
        case Decided(_, target) =>
          if before == Alive(Inviata) && (target.Approvata? || target.Respinta?) then Alive(target) else Illegal
  }

  predicate DecisionTaskOk(db: Db, t: Task) {
    t.DecideWrite? ==>
      && t.nota < db.nextNota
      && (t.nota in db.notes ==> db.notes[t.nota].userId != t.user)
      && if t.target.Approvata? then t.motivo.None?
         else t.target.Respinta? && t.motivo.Some? && t.motivo.value != ""
  }

  ghost predicate DecisionsInv(w: World) {
    && (forall n :: n in w.db.notes ==>
          && n < w.db.nextNota && FieldsMatch(w.db.notes[n])
          && LifeOf(w.db.history, n) == Alive(w.db.notes[n].stato))
    && (forall n :: LifeOf(w.db.history, n) != Illegal)
    && (forall n :: n >= w.db.nextNota ==> LifeOf(w.db.history, n) == Alive(Bozza))
    && (forall id :: id in w.tasks ==> DecisionTaskOk(w.db, w.tasks[id]))
  }

  lemma LifeAfter(history: seq<Transition>, e: Transition, n: NotaId)
    ensures LifeOf(history + [e], n) ==
      if e.nota != n then LifeOf(history, n)
      else match e
        case Sent(_) =>
          if LifeOf(history, n).Alive? && Editable(LifeOf(history, n).stato) then Alive(Inviata) else Illegal
        case Decided(_, target) =>
          if LifeOf(history, n) == Alive(Inviata) && (target.Approvata? || target.Respinta?) then Alive(target)
            else Illegal
  {
    assert (history + [e])[..|history|] == history;
  }

  lemma BeginKeepsDecisions(w: World, id: RequestId, r: Request)
    requires DecisionsInv(w)
    ensures DecisionsInv(Settled(w, id, Begin(w.db, r)))
  {
  }

  lemma SendKeepsDecisions(w: World, id: RequestId, now: int)
    requires DecisionsInv(w) && id in w.tasks && w.tasks[id].InviaWrite?
    ensures DecisionsInv(Settled(w, id, Resume(w.db, w.tasks[id], now)))
  {
    forall n { LifeAfter(w.db.history, Sent(w.tasks[id].nota), n); }
  }

  lemma DecideKeepsDecisions(w: World, id: RequestId, now: int)
    requires DecisionsInv(w) && id in w.tasks && w.tasks[id].DecideWrite?
    ensures DecisionsInv(Settled(w, id, Resume(w.db, w.tasks[id], now)))
  {
    assert DecisionTaskOk(w.db, w.tasks[id]);
    forall n { LifeAfter(w.db.history, Decided(w.tasks[id].nota, w.tasks[id].target), n); }
  }

  /** The other statements leave states, decision fields and history alone. */
  lemma OtherKeepsDecisions(w: World, id: RequestId, now: int)
    requires DecisionsInv(w) && id in w.tasks && !w.tasks[id].InviaWrite? && !w.tasks[id].DecideWrite?
    ensures DecisionsInv(Settled(w, id, Resume(w.db, w.tasks[id], now)))
  {
    var w' := Settled(w, id, Resume(w.db, w.tasks[id], now));
    assert w'.db.history == w.db.history && w'.db.nextNota == w.db.nextNota;
    assert forall n :: n in w'.db.notes ==>
        n in w.db.notes && w'.db.notes[n].userId == w.db.notes[n].userId && w'.db.notes[n].stato == w.db.notes[n].stato
        && (FieldsMatch(w.db.notes[n]) ==> FieldsMatch(w'.db.notes[n]));
    forall i | i in w'.tasks ensures DecisionTaskOk(w'.db, w'.tasks[i]) {
      if w'.tasks[i].DecideWrite? { assert i in w.tasks && w'.tasks[i] == w.tasks[i]; }
    }
  }

  lemma ResumeKeepsDecisions(w: World, id: RequestId, now: int)
    requires DecisionsInv(w) && id in w.tasks
    ensures DecisionsInv(Settled(w, id, Resume(w.db, w.tasks[id], now)))
  {
    var t := w.tasks[id];
    if t.InviaWrite? {
      SendKeepsDecisions(w, id, now);
    } else if t.DecideWrite? {
      DecideKeepsDecisions(w, id, now);
    } else {
      OtherKeepsDecisions(w, id, now);
    }
  }

  /**
   * Under any interleaving: each sending of a note gets at most one decision, nothing is
   * decided or sent after an approval, the decider is never the author, and the decision
   * fields always match the state.
   */
  lemma {:induction false} DecisionsAreSound(w: World, events: seq<Event>, serial: bool)
    requires DecisionsInv(w)
    ensures DecisionsInv(Run(w, events, serial))
    decreases |events|
  {
    if events != [] {
      match events[0] {
        case Start(id, r) => BeginKeepsDecisions(w, id, r);
        case Advance(id, now) => if id in w.tasks { ResumeKeepsDecisions(w, id, now); }
        case Crash(_) =>
      }
      DecisionsAreSound(Step(w, events[0], serial), events[1..], serial);
    }
  }

  // ---------------------------------------------------------------------------
  // Gates, when each author's own requests are serialised
  // ---------------------------------------------------------------------------

  predicate OwnEditable(db: Db, user: UserId, n: NotaId) {
    Owned(db, user, n) && Editable(db.notes[n].stato)
  }

  /** What a suspended request has read still holds. */
  predicate TaskOk(db: Db, t: Task) {
    match t
    case UpdateWrite(u, n, patch) => OwnEditable(db, u, n) && CompanyFits(db.registry, Patched(db.notes[n], patch))
    case RemoveList(u, n) => Owned(db, u, n) && db.notes[n].stato.Bozza?
    case RemoveDelete(u, n, keys) => Owned(db, u, n) && db.notes[n].stato.Bozza? && keys == KeysOf(db, n)
    case UploadInsert(u, n, _, key) =>
      && OwnEditable(db, u, n) && key in db.files && key < db.nextKey
      && forall a :: a in db.allegati ==> db.allegati[a].storageKey != key
    case DetachFind(u, n, _) => OwnEditable(db, u, n)
    case DetachDelete(u, n, a, key) =>
      && OwnEditable(db, u, n)
      && (a in db.allegati ==> db.allegati[a].notaId == n && db.allegati[a].storageKey == key)
      && (forall b :: b in db.allegati && b != a ==> db.allegati[b].storageKey != key)
      && key < db.nextKey && a < db.nextAllegato
    case InviaList(u, n, totale, metodo) =>
      OwnEditable(db, u, n) && totale == db.notes[n].totale && metodo == db.notes[n].metodo
    case InviaWrite(u, n) => OwnEditable(db, u, n) && GatesHold(db, n)
    case DecideWrite(u, n, target, _) => n < db.nextNota && (target.Approvata? || target.Respinta?)
  }

  predicate NotesOk(db: Db) {
    forall n :: n in db.notes ==>
      && n < db.nextNota
      && CompanyFits(db.registry, db.notes[n])
      && (db.notes[n].stato.Inviata? || db.notes[n].stato.Approvata? ==> GatesHold(db, n))
  }

  /** Every attachment belongs to a note and has a file of its own. */
  predicate FilesOk(db: Db) {
    && (forall a :: a in db.allegati ==>
          && a < db.nextAllegato && db.allegati[a].notaId in db.notes
          && db.allegati[a].storageKey in db.files && db.allegati[a].storageKey < db.nextKey)
    && (forall a, b ::
          (a in db.allegati && b in db.allegati && db.allegati[a].storageKey == db.allegati[b].storageKey) ==> a == b)
    && (forall a, b :: (a in db.allegati && b in db.allegati && db.allegati[a].notaId == db.allegati[b].notaId
                        && db.allegati[a].tipo == db.allegati[b].tipo) ==> a == b)
  }

  predicate TaskKey(t: Task, key: StorageKey) {
    (t.UploadInsert? || t.DetachDelete?) && t.key == key
  }

  ghost predicate TasksOk(w: World) {
    && (forall id :: id in w.tasks ==> TaskOk(w.db, w.tasks[id]))
    && (forall i, j :: (i in w.tasks && j in w.tasks && ByAuthor(w.tasks[i]) && ByAuthor(w.tasks[j])
                        && w.tasks[i].user == w.tasks[j].user) ==> i == j)
    && (forall i, j :: i in w.tasks && j in w.tasks && i != j && w.tasks[i].UploadInsert? ==>
          !TaskKey(w.tasks[j], w.tasks[i].key))
  }

  ghost predicate SerialInv(w: World) {
    NotesOk(w.db) && FilesOk(w.db) && TasksOk(w)
  }

  /** Note n and its attachments are as they were. */
  predicate Untouched(db: Db, db': Db, n: NotaId) {
    && n in db.notes && n in db'.notes && db'.notes[n] == db.notes[n]
    && (forall a :: a in db.allegati && db.allegati[a].notaId == n ==>
      a in db'.allegati && db'.allegati[a] == db.allegati[a])
    && (forall a :: a in db'.allegati && db'.allegati[a].notaId == n ==>
      a in db.allegati && db.allegati[a] == db'.allegati[a])
  }

  predicate Grows(db: Db, db': Db) {
    db'.registry == db.registry && db.nextNota <= db'.nextNota && db.nextAllegato <= db'.nextAllegato &&
      db.nextKey <= db'.nextKey
  }

  lemma UntouchedViews(db: Db, db': Db, n: NotaId)
    requires Untouched(db, db', n)
    ensures Kinds(db', n) == Kinds(db, n) && KeysOf(db', n) == KeysOf(db, n)
  {
    assert forall a :: a in AllegatiOf(db, n) <==> a in AllegatiOf(db', n);
    assert forall k :: k in Kinds(db', n) <==> k in Kinds(db, n);
    assert forall k :: k in KeysOf(db', n) <==> k in KeysOf(db, n);
  }

  /** A request on a note the step left alone can go on as before. */
  lemma TaskFrame(db: Db, db': Db, t: Task)
    requires TaskOk(db, t) && ByAuthor(t)
    requires Grows(db, db') && Untouched(db, db', t.nota)
    requires t.UploadInsert? ==> t.key in db'.files
    requires forall a :: a in db'.allegati && a !in db.allegati ==>
      !TaskKey(t, db'.allegati[a].storageKey) && a >= db.nextAllegato
    requires forall a :: a in db'.allegati && a in db.allegati ==> db'.allegati[a] == db.allegati[a]
    ensures TaskOk(db', t)
  {
    UntouchedViews(db, db', t.nota);
  }

  /** The request that moved is the only one of its author; every other sits on another note. */
  lemma OtherTasks(w: World, id: RequestId, other: RequestId)
    requires TasksOk(w) && id in w.tasks && other in w.tasks && other != id
    requires ByAuthor(w.tasks[id]) && ByAuthor(w.tasks[other])
    ensures w.tasks[other].nota != w.tasks[id].nota
  {
    assert TaskOk(w.db, w.tasks[id]) && TaskOk(w.db, w.tasks[other]);
  }

  /** One request's step, seen from the invariant: what it may have changed, and what it goes on with. */
  ghost predicate Reassembles(w: World, id: RequestId, step: (Db, Outcome))
    requires id in w.tasks
  {
    && Grows(w.db, step.0) && NotesOk(step.0) && FilesOk(step.0)
    && (forall n :: n in w.db.notes && n != w.tasks[id].nota ==> Untouched(w.db, step.0, n))
    && (forall a :: a in step.0.allegati && a in w.db.allegati ==> step.0.allegati[a] == w.db.allegati[a])
    && (forall a :: a in step.0.allegati && a !in w.db.allegati ==>
          a >= w.db.nextAllegato && w.tasks[id].UploadInsert? && step.0.allegati[a].storageKey == w.tasks[id].key)
    && (forall k :: k in w.db.files && k !in step.0.files ==>
          TaskKey(w.tasks[id], k) || exists a :: a in w.db.allegati && w.db.allegati[a].storageKey == k)
    && (step.1.Continues? ==>
          && TaskOk(step.0, step.1.task) && ByAuthor(step.1.task) && step.1.task.user == w.tasks[id].user
          && !step.1.task.UploadInsert?
          && (step.1.task.DetachDelete? ==>
                exists a :: a in w.db.allegati && w.db.allegati[a].storageKey == step.1.task.key))
  }

  lemma OthersGoOn(w: World, id: RequestId, step: (Db, Outcome), other: RequestId)
    requires SerialInv(w) && id in w.tasks && ByAuthor(w.tasks[id]) && Reassembles(w, id, step)
    requires other in w.tasks && other != id
    ensures TaskOk(step.0, w.tasks[other])
  {
    var t := w.tasks[other];
    assert TaskOk(w.db, t);
    if ByAuthor(t) {
      OtherTasks(w, id, other);
      if t.UploadInsert? {
        assert t.key in step.0.files;
      }
      if w.tasks[id].UploadInsert? {
        assert !TaskKey(t, w.tasks[id].key);
      }
      TaskFrame(w.db, step.0, t);
    }
  }

  lemma KeysStayTheirs(w: World, id: RequestId, step: (Db, Outcome), i: RequestId)
    requires SerialInv(w) && id in w.tasks && ByAuthor(w.tasks[id]) && Reassembles(w, id, step)
    requires i in w.tasks && i != id && w.tasks[i].UploadInsert? && step.1.Continues?
    ensures !TaskKey(step.1.task, w.tasks[i].key)
  {
    assert TaskOk(w.db, w.tasks[i]);
  }

  /** Reassembling the invariant after one request's step. */
  lemma Reassemble(w: World, id: RequestId, step: (Db, Outcome))
    requires SerialInv(w) && id in w.tasks && ByAuthor(w.tasks[id]) && Reassembles(w, id, step)
    ensures SerialInv(Settled(w, id, step))
  {
    var w' := Settled(w, id, step);
    forall other | other in w'.tasks && other != id ensures TaskOk(w'.db, w'.tasks[other]) {
      OthersGoOn(w, id, step, other);
    }
    forall i, j | i in w'.tasks && j in w'.tasks && i != j && w'.tasks[i].UploadInsert?
      ensures !TaskKey(w'.tasks[j], w'.tasks[i].key)
    {
      if j == id { KeysStayTheirs(w, id, step, i); }
    }
  }

  lemma UpdateWriteKeeps(w: World, id: RequestId, now: int)
    requires SerialInv(w) && id in w.tasks && w.tasks[id].UpdateWrite?
    ensures SerialInv(Settled(w, id, Resume(w.db, w.tasks[id], now)))
  {
    var step := Resume(w.db, w.tasks[id], now);
    assert TaskOk(w.db, w.tasks[id]);
    forall n | n in w.db.notes && n != w.tasks[id].nota ensures Untouched(w.db, step.0, n) {}
    forall n | n in step.0.notes && n != w.tasks[id].nota && GatesHold(w.db, n) ensures GatesHold(step.0, n) {
      UntouchedViews(w.db, step.0, n);
    }
    Reassemble(w, id, step);
  }

  lemma RemoveKeeps(w: World, id: RequestId, now: int)
    requires SerialInv(w) && id in w.tasks && (w.tasks[id].RemoveList? || w.tasks[id].RemoveDelete?)
    ensures SerialInv(Settled(w, id, Resume(w.db, w.tasks[id], now)))
  {
    var step := Resume(w.db, w.tasks[id], now);
    assert TaskOk(w.db, w.tasks[id]);
    forall n | n in w.db.notes && n != w.tasks[id].nota ensures Untouched(w.db, step.0, n) {
      if w.tasks[id].RemoveDelete? {
        forall a | a in w.db.allegati && w.db.allegati[a].notaId == n ensures a in step.0.allegati {}
      }
    }
    forall n | n in step.0.notes && n != w.tasks[id].nota && GatesHold(w.db, n) ensures GatesHold(step.0, n) {
      UntouchedViews(w.db, step.0, n);
    }
    forall k | k in w.db.files && k !in step.0.files
      ensures exists a :: a in w.db.allegati && w.db.allegati[a].storageKey == k
    {
      assert k in KeysOf(w.db, w.tasks[id].nota);
    }
    forall a | a in step.0.allegati ensures step.0.allegati[a].storageKey in step.0.files {
      assert w.db.allegati[a].storageKey in w.db.files;
    }
    Reassemble(w, id, step);
  }

  lemma NewAllegatoFits(db: Db, n: NotaId, tipo: Tipo, key: StorageKey)
    requires FilesOk(db) && n in db.notes && tipo !in Kinds(db, n)
    requires key in db.files && key < db.nextKey
    requires forall a :: a in db.allegati ==> db.allegati[a].storageKey != key
    ensures
      var more := db.allegati[db.nextAllegato := Allegato(n, tipo, key)];
      FilesOk(db.(allegati := more, nextAllegato := db.nextAllegato + 1))
  {
    assert forall a :: a in db.allegati && db.allegati[a].notaId == n ==> db.allegati[a].tipo in Kinds(db, n);
  }

  /** A file less, which no attachment has. */
  lemma FileGone(db: Db, key: StorageKey)
    requires NotesOk(db) && FilesOk(db)
    requires forall a :: a in db.allegati ==> db.allegati[a].storageKey != key
    ensures
      var after := db.(files := db.files - {key});
      NotesOk(after) && FilesOk(after) && forall n :: n in db.notes ==> Untouched(db, after, n)
  {
    var after := db.(files := db.files - {key});
    forall n ensures Kinds(after, n) == Kinds(db, n) {}
  }

  lemma UploadRefusedReassembles(w: World, id: RequestId)
    requires SerialInv(w) && id in w.tasks && w.tasks[id].UploadInsert?
    ensures Reassembles(w, id, (w.db.(files := w.db.files - {w.tasks[id].key}), Replied(TipoExists)))
  {
    var t := w.tasks[id];
    KeyIsOurs(w.db, t);
    FileGone(w.db, t.key);
  }

  lemma KeyIsOurs(db: Db, t: Task)
    requires TaskOk(db, t) && t.UploadInsert?
    ensures TaskKey(t, t.key) && forall a :: a in db.allegati ==> db.allegati[a].storageKey != t.key
  {
  }

  lemma UploadRefusedKeeps(w: World, id: RequestId, now: int)
    requires SerialInv(w) && id in w.tasks && w.tasks[id].UploadInsert?
    requires w.tasks[id].tipo in Kinds(w.db, w.tasks[id].nota)
    ensures SerialInv(Settled(w, id, Resume(w.db, w.tasks[id], now)))
  {
    var step := (w.db.(files := w.db.files - {w.tasks[id].key}), Replied(TipoExists));
    assert TaskOk(w.db, w.tasks[id]);
    assert Resume(w.db, w.tasks[id], now) == step;
    UploadRefusedReassembles(w, id);
    Reassemble(w, id, step);
  }

  lemma UploadInsertKeeps(w: World, id: RequestId, now: int)
    requires SerialInv(w) && id in w.tasks && w.tasks[id].UploadInsert?
    requires w.tasks[id].tipo !in Kinds(w.db, w.tasks[id].nota)
    ensures SerialInv(Settled(w, id, Resume(w.db, w.tasks[id], now)))
  {
    var t := w.tasks[id];
    var step := Resume(w.db, t, now);
    assert TaskOk(w.db, t);
    NewAllegatoFits(w.db, t.nota, t.tipo, t.key);
    forall n | n in w.db.notes && n != t.nota ensures Untouched(w.db, step.0, n) {}
    forall n | n in step.0.notes && n != t.nota && GatesHold(w.db, n) ensures GatesHold(step.0, n) {
      UntouchedViews(w.db, step.0, n);
    }
    Reassemble(w, id, step);
  }

  /** A statement that only reads. */
  lemma ReadKeeps(w: World, id: RequestId, now: int)
    requires SerialInv(w) && id in w.tasks && (w.tasks[id].DetachFind? || w.tasks[id].InviaList?)
    ensures SerialInv(Settled(w, id, Resume(w.db, w.tasks[id], now)))
  {
    assert TaskOk(w.db, w.tasks[id]);
    assert Resume(w.db, w.tasks[id], now).0 == w.db;
    Reassemble(w, id, Resume(w.db, w.tasks[id], now));
  }

  /** An attachment of an editable note less, and its file. */
  lemma AllegatoGone(db: Db, a: AllegatoId)
    requires NotesOk(db) && FilesOk(db) && a in db.allegati && Editable(db.notes[db.allegati[a].notaId].stato)
    ensures
      var after := db.(allegati := db.allegati - {a}, files := db.files - {db.allegati[a].storageKey});
      && NotesOk(after) && FilesOk(after)
      && forall n :: n in db.notes && n != db.allegati[a].notaId ==> Untouched(db, after, n)
  {
    var after := db.(allegati := db.allegati - {a}, files := db.files - {db.allegati[a].storageKey});
    forall n | n in db.notes && n != db.allegati[a].notaId ensures Untouched(db, after, n) {}
    forall n | n in after.notes && n != db.allegati[a].notaId && GatesHold(db, n) ensures GatesHold(after, n) {
      UntouchedViews(db, after, n);
    }
  }

  lemma DetachDeleteKeeps(w: World, id: RequestId, now: int)
    requires SerialInv(w) && id in w.tasks && w.tasks[id].DetachDelete?
    ensures SerialInv(Settled(w, id, Resume(w.db, w.tasks[id], now)))
  {
    var t := w.tasks[id];
    assert TaskOk(w.db, t);
    if t.allegato in w.db.allegati { AllegatoGone(w.db, t.allegato); }
    Reassemble(w, id, Resume(w.db, t, now));
  }

  lemma InviaWriteKeeps(w: World, id: RequestId, now: int)
    requires SerialInv(w) && id in w.tasks && w.tasks[id].InviaWrite?
    ensures SerialInv(Settled(w, id, Resume(w.db, w.tasks[id], now)))
  {
    var t := w.tasks[id];
    var step := Resume(w.db, t, now);
    assert TaskOk(w.db, t);
    forall n ensures Kinds(step.0, n) == Kinds(w.db, n) {}
    forall n | n in w.db.notes && n != t.nota ensures Untouched(w.db, step.0, n) {}
    assert NotesOk(step.0);
    Reassemble(w, id, step);
  }

  /** A decision changes only a sent note, and no author's request is suspended on one. */
  lemma DecideKeeps(w: World, id: RequestId, now: int)
    requires SerialInv(w) && id in w.tasks && w.tasks[id].DecideWrite?
    ensures SerialInv(Settled(w, id, Resume(w.db, w.tasks[id], now)))
  {
    var t := w.tasks[id];
    var step := Resume(w.db, t, now);
    var w' := Settled(w, id, step);
    assert TaskOk(w.db, t);
    assert forall n :: Kinds(step.0, n) == Kinds(w.db, n);
    forall other | other in w'.tasks ensures TaskOk(w'.db, w'.tasks[other]) {
      var u := w.tasks[other];
      assert TaskOk(w.db, u);
      if ByAuthor(u) {
        if step.0 != w.db { assert u.nota != t.nota; }
        TaskFrame(w.db, step.0, u);
      }
    }
  }

  lemma ResumeKeeps(w: World, id: RequestId, now: int)
    requires SerialInv(w) && id in w.tasks
    ensures SerialInv(Settled(w, id, Resume(w.db, w.tasks[id], now)))
  {
    match w.tasks[id]
    case UpdateWrite(_, _, _) => UpdateWriteKeeps(w, id, now);
    case RemoveList(_, _) => RemoveKeeps(w, id, now);
    case RemoveDelete(_, _, _) => RemoveKeeps(w, id, now);
    case UploadInsert(_, n, tipo, _) =>
      if tipo in Kinds(w.db, n) { UploadRefusedKeeps(w, id, now); } else { UploadInsertKeeps(w, id, now); }
    case DetachFind(_, _, _) => ReadKeeps(w, id, now);
    case DetachDelete(_, _, _, _) => DetachDeleteKeeps(w, id, now);
    case InviaList(_, _, _, _) => ReadKeeps(w, id, now);
    case InviaWrite(_, _) => InviaWriteKeeps(w, id, now);
    case DecideWrite(_, _, _, _) => DecideKeeps(w, id, now);
  }

  lemma OldTasksOk(w: World, db: Db)
    requires TasksOk(w) && Grows(w.db, db)
    requires db.allegati == w.db.allegati && w.db.files <= db.files
    requires forall n :: n in w.db.notes ==> n in db.notes && db.notes[n] == w.db.notes[n]
    requires forall n :: n in db.notes && n !in w.db.notes ==> n >= w.db.nextNota
    ensures TasksOk(w.(db := db))
  {
    forall i | i in w.tasks ensures TaskOk(db, w.tasks[i]) {
      assert TaskOk(w.db, w.tasks[i]);
      if ByAuthor(w.tasks[i]) { TaskFrame(w.db, db, w.tasks[i]); }
    }
  }

  /** A new suspended request beside the old ones. */
  lemma Admit(w: World, id: RequestId, t: Task)
    requires TasksOk(w) && id !in w.tasks && TaskOk(w.db, t) && !t.DetachDelete?
    requires ByAuthor(t) ==> Busy(w, t.user) == {}
    requires t.UploadInsert? ==> forall i :: i in w.tasks ==> !TaskKey(w.tasks[i], t.key)
    ensures TasksOk(w.(tasks := w.tasks[id := t]))
  {
    forall i | i in w.tasks && ByAuthor(w.tasks[i]) && ByAuthor(t) ensures w.tasks[i].user != t.user {
      assert i !in Busy(w, t.user);
    }
  }

  /** A request that goes on, or is refused, without having written. */
  lemma ReadingBeginKeeps(w: World, id: RequestId, r: Request)
    requires SerialInv(w) && id !in w.tasks && Begin(w.db, r).0 == w.db
    requires Deciding(r) || Busy(w, r.user) == {}
    ensures SerialInv(Settled(w, id, Begin(w.db, r)))
  {
    var step := Begin(w.db, r);
    if step.1.Continues? {
      Admit(w, id, step.1.task);
    } else {
      assert w.tasks - {id} == w.tasks;
    }
  }

  lemma CreateKeeps(w: World, id: RequestId, r: Request)
    requires SerialInv(w) && id !in w.tasks && r.Create?
    ensures SerialInv(Settled(w, id, Begin(w.db, r)))
  {
    var db := Begin(w.db, r).0;
    forall n ensures Kinds(db, n) == Kinds(w.db, n) {}
    OldTasksOk(w, db);
    assert w.tasks - {id} == w.tasks;
  }

  lemma UploadBeginKeeps(w: World, id: RequestId, r: Request)
    requires SerialInv(w) && id !in w.tasks && r.Upload? && Begin(w.db, r).1.Continues?
    requires Busy(w, r.user) == {}
    ensures SerialInv(Settled(w, id, Begin(w.db, r)))
  {
    var db, t := Begin(w.db, r).0, Begin(w.db, r).1.task;
    forall n ensures Kinds(db, n) == Kinds(w.db, n) {}
    OldTasksOk(w, db);
    forall i | i in w.tasks ensures !TaskKey(w.tasks[i], t.key) {
      assert TaskOk(w.db, w.tasks[i]);
    }
    assert Busy(w.(db := db), r.user) == Busy(w, r.user);
    Admit(w.(db := db), id, t);
  }

  lemma BeginKeeps(w: World, id: RequestId, r: Request)
    requires SerialInv(w) && id !in w.tasks
    requires Deciding(r) || Busy(w, r.user) == {}
    ensures SerialInv(Settled(w, id, Begin(w.db, r)))
  {
    if r.Create? {
      CreateKeeps(w, id, r);
    } else if r.Upload? && Begin(w.db, r).1.Continues? {
      UploadBeginKeeps(w, id, r);
    } else {
      assert Begin(w.db, r).0 == w.db;
      ReadingBeginKeeps(w, id, r);
    }
  }

  lemma StepKeeps(w: World, e: Event)
    requires SerialInv(w)
    ensures SerialInv(Step(w, e, true))
  {
    match e
    case Start(id, r) =>
      if !(id in w.tasks || (!Deciding(r) && Busy(w, r.user) != {})) { BeginKeeps(w, id, r); }
    case Advance(id, now) => if id in w.tasks { ResumeKeeps(w, id, now); }
    case Crash(id) =>
  }

  /**
   * With each author's own requests serialised, and decisions, other authors and crashes
   * interleaved freely: every sent or approved note satisfies both gates on its content of
   * now, every note fits its mandate's company, and every attachment has its file.
   */
  lemma {:induction false} GatesAlwaysHold(w: World, events: seq<Event>)
    requires SerialInv(w)
    ensures SerialInv(Run(w, events, true))
    decreases |events|
  {
    if events != [] {
      StepKeeps(w, events[0]);
      GatesAlwaysHold(Step(w, events[0], true), events[1..]);
    }
  }

  lemma ResumeSparesApproved(w: World, id: RequestId, now: int, n: NotaId)
    requires SerialInv(w) && n in w.db.notes && w.db.notes[n].stato.Approvata? && id in w.tasks
    ensures Untouched(w.db, Resume(w.db, w.tasks[id], now).0, n)
  {
    assert TaskOk(w.db, w.tasks[id]);
    ResumeReachesIff(w.db, w.tasks[id], now, n);
  }

  lemma StepSparesApproved(w: World, e: Event, n: NotaId)
    requires SerialInv(w) && n in w.db.notes && w.db.notes[n].stato.Approvata?
    ensures Untouched(w.db, Step(w, e, true).db, n)
  {
    if e.Advance? && e.id in w.tasks {
      ResumeSparesApproved(w, e.id, e.now, n);
    }
  }

  /** An approved note is final: it is never edited, deleted or decided again, nor its attachments. */
  lemma {:induction false} ApprovedForever(w: World, events: seq<Event>, n: NotaId)
    requires SerialInv(w) && n in w.db.notes && w.db.notes[n].stato.Approvata?
    ensures Untouched(w.db, Run(w, events, true).db, n)
    decreases |events|
  {
    if events != [] {
      StepKeeps(w, events[0]);
      StepSparesApproved(w, events[0], n);
      ApprovedForever(Step(w, events[0], true), events[1..], n);
    }
  }

  ghost predicate SentNotesPassGates(w: World) {
    SentOk(w.db)
  }

  /** An edit that passed its check while the note was a draft, and is written once it is sent. */
  const LATE_EDIT := [
    Start(0, Create(7, 0, Contanti, None, None)), Start(1, Update(7, 0, Patch(Some(100), None, None, None))),
    Start(2, Invia(7, 0)), Advance(2, 1), Advance(2, 2), Advance(1, 3)]

  lemma LateEditIsChecked(w: World)
    requires w.tasks == map[] && w.db.allegati == map[] && w.db.notes == map[] && w.db.nextNota == 0
    ensures
      var sending := Step(Step(Step(w, LATE_EDIT[0], false), LATE_EDIT[1], false), LATE_EDIT[2], false);
      && sending.db == w.db.(notes := map[0 := Draft()], nextNota := 1)
      && sending.tasks == map[1 := UpdateWrite(7, 0, LATE_EDIT[1].request.patch), 2 := InviaList(7, 0, 0, Contanti)]
  {
    var w1 := Step(w, LATE_EDIT[0], false);
    assert w1 == World(w.db.(notes := map[0 := Draft()], nextNota := 1), map[]);
    var w2 := Step(w1, LATE_EDIT[1], false);
    assert w2 == w1.(tasks := map[1 := UpdateWrite(7, 0, LATE_EDIT[1].request.patch)]);
  }

  lemma LateEditIsWritten(w: World)
    requires w.db.allegati == map[] && w.db.notes == map[0 := Draft()]
    requires w.tasks == map[1 := UpdateWrite(7, 0, LATE_EDIT[1].request.patch), 2 := InviaList(7, 0, 0, Contanti)]
    ensures !SentNotesPassGates(Step(Step(Step(w, LATE_EDIT[3], false), LATE_EDIT[4], false), LATE_EDIT[5], false))
  {
    var edit := UpdateWrite(7, 0, LATE_EDIT[1].request.patch);
    var w1 := Step(w, LATE_EDIT[3], false);
    assert w1 == w.(tasks := map[1 := edit, 2 := InviaWrite(7, 0)]);
    var w2 := Step(w1, LATE_EDIT[4], false);
    assert w2.db.notes[0].stato.Inviata? && w2.tasks == map[1 := edit];
    var w3 := Step(w2, LATE_EDIT[5], false);
    assert w3.db.notes[0].totale == 100 && w3.db.allegati == map[];
    assert PastSending(w3.db, 0) && !GatesHold(w3.db, 0);
  }

  lemma LateEditSlipsThrough(reg: Registry)
    ensures !SentNotesPassGates(Run(EmptyWorld(reg), LATE_EDIT, false))
  {
    var e, w0 := LATE_EDIT, EmptyWorld(reg);
    LateEditIsChecked(w0);
    RunThree(w0, e[0], e[1], e[2], false);
    var w3 := Run(w0, [e[0], e[1], e[2]], false);
    LateEditIsWritten(w3);
    RunThree(w3, e[3], e[4], e[5], false);
    RunAppend(w0, [e[0], e[1], e[2]], [e[3], e[4], e[5]], false);
    assert e == [e[0], e[1], e[2]] + [e[3], e[4], e[5]];
  }

  /**
   * The conditional updates close the race between senders and deciders, and no more: over
   * all runs from the start the gates of sent notes hold exactly when an author's own
   * requests do not overlap.
   */
  lemma GatesHoldIffSerialised(reg: Registry, serial: bool)
    ensures (forall events :: SentNotesPassGates(Run(EmptyWorld(reg), events, serial))) <==> serial
  {
    if serial {
      forall events ensures SentNotesPassGates(Run(EmptyWorld(reg), events, serial)) {
        GatesAlwaysHold(EmptyWorld(reg), events);
      }
    } else {
      LateEditSlipsThrough(reg);
    }
  }

  // ---------------------------------------------------------------------------
  // Overlapping requests: exactly the statements that break something
  // ---------------------------------------------------------------------------

  /** Fresh ids are fresh, whatever overlaps. */
  predicate IdsOk(db: Db) {
    && (forall n :: n in db.notes ==> n < db.nextNota)
    && (forall a :: a in db.allegati ==> a < db.nextAllegato)
  }

  lemma StepKeepsIds(w: World, e: Event, serial: bool)
    requires IdsOk(w.db)
    ensures IdsOk(Step(w, e, serial).db)
  {
  }

  predicate PastSending(db: Db, n: NotaId) {
    n in db.notes && (db.notes[n].stato.Inviata? || db.notes[n].stato.Approvata?)
  }

  /** The kinds of note n without attachment a. */
  function KindsWithout(db: Db, n: NotaId, a: AllegatoId): set<Tipo> {
    set b | b in db.allegati && b != a && db.allegati[b].notaId == n :: db.allegati[b].tipo
  }

  /**
   * The three statements that break a gate: a sending written after the content changed, an
   * edit written after the sending, and an attachment removed after it that was needed.
   */
  predicate BreaksGate(db: Db, t: Task) {
    match t
    case InviaWrite(_, n) => n in db.notes && Editable(db.notes[n].stato) && !GatesHold(db, n)
    case UpdateWrite(_, n, patch) =>
      PastSending(db, n) &&
        GateError(Patched(db.notes[n], patch).totale, Patched(db.notes[n], patch).metodo, Kinds(db, n)).Some?
    case DetachDelete(_, _, a, _) =>
      a in db.allegati && PastSending(db, db.allegati[a].notaId)
      && var n := db.allegati[a].notaId;
         GateError(db.notes[n].totale, db.notes[n].metodo, KindsWithout(db, n, a)).Some?
    case _ => false
  }

  predicate EventBreaksGate(w: World, e: Event) {
    e.Advance? && e.id in w.tasks && BreaksGate(w.db, w.tasks[e.id])
  }

  ghost predicate SentOk(db: Db) {
    forall n :: PastSending(db, n) ==> GatesHold(db, n)
  }

  lemma MoreKindsPass(totale: int, metodo: Metodo, have: set<Tipo>, more: set<Tipo>)
    requires have <= more && GateError(totale, metodo, have).None?
    ensures GateError(totale, metodo, more).None?
  {
  }

  lemma KindsAfterDetach(db: Db, a: AllegatoId, n: NotaId)
    requires a in db.allegati
    ensures
      Kinds(db.(allegati := db.allegati - {a}), n)
        == if n == db.allegati[a].notaId then KindsWithout(db, n, a) else Kinds(db, n)
  {
    var after := db.(allegati := db.allegati - {a});
    assert forall b :: b in after.allegati <==> b in db.allegati && b != a;
    if n == db.allegati[a].notaId {
      forall k | k in KindsWithout(db, n, a) ensures k in Kinds(after, n) {
        var b :| b in db.allegati && b != a && db.allegati[b].notaId == n && db.allegati[b].tipo == k;
        assert b in after.allegati && after.allegati[b].tipo == k;
      }
    } else {
      forall k | k in Kinds(db, n) ensures k in Kinds(after, n) {
        var b :| b in db.allegati && db.allegati[b].notaId == n && db.allegati[b].tipo == k;
        assert b in after.allegati && after.allegati[b].tipo == k;
      }
    }
  }

  lemma DetachGates(db: Db, t: Task, now: int)
    requires SentOk(db) && t.DetachDelete?
    ensures SentOk(Resume(db, t, now).0) <==> !BreaksGate(db, t)
  {
    var after := Resume(db, t, now).0;
    if t.allegato in db.allegati {
      var m := db.allegati[t.allegato].notaId;
      assert after.notes == db.notes;
      var bare := db.(allegati := db.allegati - {t.allegato});
      forall n ensures Kinds(after, n) == if n == m then KindsWithout(db, n, t.allegato) else Kinds(db, n) {
        KindsAfterDetach(db, t.allegato, n);
        assert Kinds(after, n) == Kinds(bare, n);
      }
      forall n | n != m && PastSending(after, n) ensures GatesHold(after, n) {
        assert PastSending(db, n);
      }
      assert SentOk(after) <==> (PastSending(after, m) ==> GatesHold(after, m));
    }
  }

  lemma UploadGates(db: Db, t: Task, now: int)
    requires SentOk(db) && IdsOk(db) && t.UploadInsert?
    ensures SentOk(Resume(db, t, now).0)
  {
    var after := Resume(db, t, now).0;
    assert after.notes == db.notes;
    forall n | PastSending(after, n) ensures GatesHold(after, n) {
      assert PastSending(db, n);
      assert Kinds(db, n) <= Kinds(after, n) by {
        forall k | k in Kinds(db, n) ensures k in Kinds(after, n) {
          var a :| a in db.allegati && db.allegati[a].notaId == n && db.allegati[a].tipo == k;
          assert a in after.allegati && after.allegati[a] == db.allegati[a];
        }
      }
      MoreKindsPass(db.notes[n].totale, db.notes[n].metodo, Kinds(db, n), Kinds(after, n));
    }
  }

  lemma RemoveGates(db: Db, t: Task, now: int)
    requires SentOk(db) && t.RemoveDelete?
    ensures SentOk(Resume(db, t, now).0)
  {
    var after := Resume(db, t, now).0;
    forall n | PastSending(after, n) ensures GatesHold(after, n) {
      assert PastSending(db, n);
      if t.nota in db.notes {
        assert forall a :: a in db.allegati && db.allegati[a].notaId == n ==> a in after.allegati;
        forall k | k in Kinds(db, n) ensures k in Kinds(after, n) {
          var a :| a in db.allegati && db.allegati[a].notaId == n && db.allegati[a].tipo == k;
          assert a in after.allegati && after.allegati[a] == db.allegati[a];
        }
      }
    }
  }

  /** The statements that write a note: its attachments stay, and so do the other notes. */
  lemma NoteGates(db: Db, t: Task, now: int)
    requires SentOk(db) && (t.UpdateWrite? || t.InviaWrite? || t.DecideWrite?)
    ensures SentOk(Resume(db, t, now).0) <==> !BreaksGate(db, t)
  {
    var after := Resume(db, t, now).0;
    assert after.allegati == db.allegati;
    forall n ensures Kinds(after, n) == Kinds(db, n) {}
    forall n | n != t.nota && PastSending(after, n) ensures GatesHold(after, n) {
      assert PastSending(db, n);
    }
    if t.nota in db.notes {
      assert PastSending(db, t.nota) ==> GatesHold(db, t.nota);
      assert SentOk(after) <==> (PastSending(after, t.nota) ==> GatesHold(after, t.nota));
    }
  }

  lemma StartGates(w: World, id: RequestId, r: Request, serial: bool)
    requires SentOk(w.db) && IdsOk(w.db)
    ensures SentOk(Step(w, Start(id, r), serial).db)
  {
    var after := Step(w, Start(id, r), serial).db;
    assert after.allegati == w.db.allegati;
    forall n ensures Kinds(after, n) == Kinds(w.db, n) {}
    forall n | PastSending(after, n) ensures PastSending(w.db, n) && after.notes[n] == w.db.notes[n] {}
  }

  /** One statement of any interleaving takes a gate away from a sent note exactly when it is one of the three. */
  lemma StepBreaksGateIff(w: World, e: Event, serial: bool)
    requires SentOk(w.db) && IdsOk(w.db)
    ensures SentOk(Step(w, e, serial).db) <==> !EventBreaksGate(w, e)
  {
    match e
    case Start(id, r) => StartGates(w, id, r, serial);
    case Crash(_) =>
    case Advance(id, now) =>
      if id in w.tasks {
        var t := w.tasks[id];
        match t
        case UpdateWrite(_, _, _) => NoteGates(w.db, t, now);
        case InviaWrite(_, _) => NoteGates(w.db, t, now);
        case DecideWrite(_, _, _, _) => NoteGates(w.db, t, now);
        case RemoveDelete(_, _, _) => RemoveGates(w.db, t, now);
        case UploadInsert(_, _, _, _) => UploadGates(w.db, t, now);
        case DetachDelete(_, _, _, _) => DetachGates(w.db, t, now);
        case _ =>
      }
  }

  ghost predicate GatesHoldThroughout(w: World, events: seq<Event>, serial: bool)
    decreases |events|
  {
    SentOk(w.db) && (events == [] || GatesHoldThroughout(Step(w, events[0], serial), events[1..], serial))
  }

  predicate EverBreaksGate(w: World, events: seq<Event>, serial: bool)
    decreases |events|
  {
    events != [] && (EventBreaksGate(w, events[0]) || EverBreaksGate(Step(w, events[0], serial), events[1..], serial))
  }

  /** Over any run, with any overlap: the gates hold throughout exactly when none of the three ever lands. */
  lemma {:induction false} GatesHoldThroughoutIff(w: World, events: seq<Event>, serial: bool)
    requires SentOk(w.db) && IdsOk(w.db)
    ensures GatesHoldThroughout(w, events, serial) <==> !EverBreaksGate(w, events, serial)
    decreases |events|
  {
    if events != [] {
      var next := Step(w, events[0], serial);
      StepBreaksGateIff(w, events[0], serial);
      StepKeepsIds(w, events[0], serial);
      if SentOk(next.db) {
        GatesHoldThroughoutIff(next, events[1..], serial);
      }
    }
  }

  lemma SerialIsSound(w: World)
    requires SerialInv(w)
    ensures SentOk(w.db) && IdsOk(w.db)
  {
  }

  /** Serialised, no author's request ever writes one of the three. */
  lemma {:induction false} SerialisedNeverBreaks(w: World, events: seq<Event>)
    requires SerialInv(w)
    ensures !EverBreaksGate(w, events, true)
    decreases |events|
  {
    if events != [] {
      StepKeeps(w, events[0]);
      SerialIsSound(w);
      SerialIsSound(Step(w, events[0], true));
      StepBreaksGateIff(w, events[0], true);
      SerialisedNeverBreaks(Step(w, events[0], true), events[1..]);
    }
  }

  /** The statements that reach into note n, and change it or its attachments. */
  predicate Reaches(db: Db, t: Task, n: NotaId)
    requires n in db.notes
  {
    match t
    case UpdateWrite(_, m, patch) => m == n && Patched(db.notes[n], patch) != db.notes[n]
    case RemoveDelete(_, m, _) => m == n
    case UploadInsert(_, m, tipo, _) => m == n && tipo !in Kinds(db, n)
    case DetachDelete(_, _, a, _) => a in db.allegati && db.allegati[a].notaId == n
    case _ => false
  }

  predicate EventReaches(w: World, e: Event, n: NotaId)
    requires n in w.db.notes
  {
    e.Advance? && e.id in w.tasks && Reaches(w.db, w.tasks[e.id], n)
  }

  lemma ResumeReachesIff(db: Db, t: Task, now: int, n: NotaId)
    requires IdsOk(db) && n in db.notes && db.notes[n].stato.Approvata?
    ensures Untouched(db, Resume(db, t, now).0, n) <==> !Reaches(db, t, n)
  {
    var after := Resume(db, t, now).0;
    if t.UploadInsert? && Reaches(db, t, n) {
      assert db.nextAllegato in after.allegati && after.allegati[db.nextAllegato].notaId == n;
    }
    if t.DetachDelete? && Reaches(db, t, n) {
      assert t.allegato !in after.allegati;
    }
  }

  /** One statement changes an approved note, or its attachments, exactly when it is one of the four. */
  lemma StepReachesIff(w: World, e: Event, serial: bool, n: NotaId)
    requires IdsOk(w.db) && n in w.db.notes && w.db.notes[n].stato.Approvata?
    ensures Untouched(w.db, Step(w, e, serial).db, n) <==> !EventReaches(w, e, n)
  {
    if e.Advance? && e.id in w.tasks {
      ResumeReachesIff(w.db, w.tasks[e.id], e.now, n);
    }
  }

  ghost predicate UntouchedThroughout(db: Db, w: World, events: seq<Event>, serial: bool, n: NotaId)
    decreases |events|
  {
    Untouched(db, w.db, n) && (events == [] ||
      UntouchedThroughout(db, Step(w, events[0], serial), events[1..], serial, n))
  }

  predicate EverReached(w: World, events: seq<Event>, serial: bool, n: NotaId)
    decreases |events|
  {
    n in w.db.notes && events != [] &&
    (EventReaches(w, events[0], n) || EverReached(Step(w, events[0], serial), events[1..], serial, n))
  }

  lemma UntouchedBoth(a: Db, b: Db, c: Db, n: NotaId)
    requires Untouched(a, b, n)
    ensures Untouched(a, c, n) <==> Untouched(b, c, n)
  {
  }

  /** Over any run, with any overlap: an approved note stays as it is exactly when none of the four ever lands on it. */
  lemma {:induction false} ApprovedUntouchedIff(db: Db, w: World, events: seq<Event>, serial: bool, n: NotaId)
    requires IdsOk(w.db) && n in w.db.notes && w.db.notes[n].stato.Approvata? && Untouched(db, w.db, n)
    ensures UntouchedThroughout(db, w, events, serial, n) <==> !EverReached(w, events, serial, n)
    decreases |events|
  {
    if events != [] {
      var next := Step(w, events[0], serial);
      StepReachesIff(w, events[0], serial, n);
      StepKeepsIds(w, events[0], serial);
      UntouchedBoth(db, w.db, next.db, n);
      if Untouched(w.db, next.db, n) {
        ApprovedUntouchedIff(db, next, events[1..], serial, n);
      }
    }
  }

  /** A remove that passed its check while the note was a draft, and is written once it is approved. */
  const LATE_REMOVE := [
    Start(0, Create(7, 0, Contanti, None, None)), Start(1, Remove(7, 0)), Advance(1, 1),
    Start(2, Invia(7, 0)), Advance(2, 2), Advance(2, 3), Start(3, Approva(8, 0)), Advance(3, 4)]

  function Draft(): Nota {
    Nota(7, Bozza, 0, Contanti, None, None, None, None, None, None)
  }

  function ApprovedNota(): Nota {
    Draft().(stato := Approvata, inviataAt := Some(3), decisaAt := Some(4), decisaDaId := Some(8))
  }

  lemma LateRemoveIsChecked(w: World)
    requires w.tasks == map[] && w.db.allegati == map[] && w.db.notes == map[] && w.db.nextNota == 0
    ensures
      var checked := Step(Step(Step(w, LATE_REMOVE[0], false), LATE_REMOVE[1], false), LATE_REMOVE[2], false);
      checked == World(w.db.(notes := map[0 := Draft()], nextNota := 1), map[1 := RemoveDelete(7, 0, {})])
  {
    var w1 := Step(w, LATE_REMOVE[0], false);
    assert w1 == World(w.db.(notes := map[0 := Draft()], nextNota := 1), map[]);
    var w2 := Step(w1, LATE_REMOVE[1], false);
    assert w2 == w1.(tasks := map[1 := RemoveList(7, 0)]);
    assert KeysOf(w1.db, 0) == {};
  }

  lemma SentMeanwhile(w: World, t: Task)
    requires w.tasks == map[1 := t] && w.db.allegati == map[] && w.db.notes == map[0 := Draft()]
    ensures
      var sent := Step(Step(Step(w, LATE_REMOVE[3], false), LATE_REMOVE[4], false), LATE_REMOVE[5], false);
      sent.tasks == map[1 := t] && sent.db.allegati == map[] &&
        sent.db.notes == map[0 := Draft().(stato := Inviata, inviataAt := Some(3))]
  {
    var w1 := Step(w, LATE_REMOVE[3], false);
    assert w1 == w.(tasks := map[1 := t, 2 := InviaList(7, 0, 0, Contanti)]);
    var w2 := Step(w1, LATE_REMOVE[4], false);
    assert w2 == w.(tasks := map[1 := t, 2 := InviaWrite(7, 0)]);
    var w3 := Step(w2, LATE_REMOVE[5], false);
    assert w3.tasks == map[1 := t];
  }

  lemma ApprovedMeanwhile(w: World, t: Task)
    requires w.tasks == map[1 := t] && w.db.notes == map[0 := Draft().(stato := Inviata, inviataAt := Some(3))]
    ensures
      var approved := Step(Step(w, LATE_REMOVE[6], false), LATE_REMOVE[7], false);
      approved.tasks == map[1 := t] && approved.db.notes == map[0 := ApprovedNota()]
  {
    var w1 := Step(w, LATE_REMOVE[6], false);
    assert w1 == w.(tasks := map[1 := t, 3 := DecideWrite(8, 0, Approvata, None)]);
    var w2 := Step(w1, LATE_REMOVE[7], false);
    assert w2.tasks == map[1 := t];
  }

  lemma {:induction false} RunAppend(w: World, first: seq<Event>, second: seq<Event>, serial: bool)
    ensures Run(w, first + second, serial) == Run(Run(w, first, serial), second, serial)
    decreases |first|
  {
    if first == [] {
      assert first + second == second;
    } else {
      assert (first + second)[1..] == first[1..] + second;
      RunAppend(Step(w, first[0], serial), first[1..], second, serial);
    }
  }

  lemma RunThree(w: World, a: Event, b: Event, c: Event, serial: bool)
    ensures Run(w, [a, b, c], serial) == Step(Step(Step(w, a, serial), b, serial), c, serial)
  {
    assert [a, b, c][1..] == [b, c];
    RunTwo(Step(w, a, serial), b, c, serial);
  }

  lemma RunTwo(w: World, a: Event, b: Event, serial: bool)
    ensures Run(w, [a, b], serial) == Step(Step(w, a, serial), b, serial)
  {
    assert Run(w, [a, b], serial) == Run(Step(w, a, serial), [b], serial) by { assert [a, b][1..] == [b]; }
    assert Run(Step(w, a, serial), [b], serial) == Run(Step(Step(w, a, serial), b, serial), [], serial);
  }

  /** An approved note can be deleted: the last of the four lands in this run. */
  lemma LateRemoveDeletesApproved(reg: Registry)
    ensures
      var w := Run(EmptyWorld(reg), LATE_REMOVE, false);
      0 in w.db.notes && w.db.notes[0].stato.Approvata? && 0 !in Step(w, Advance(1, 5), false).db.notes
  {
    var e := LATE_REMOVE;
    var w0 := EmptyWorld(reg);
    var w3 := Run(w0, [e[0], e[1], e[2]], false);
    var w6 := Run(w3, [e[3], e[4], e[5]], false);
    RunThree(w0, e[0], e[1], e[2], false);
    LateRemoveIsChecked(w0);
    RunThree(w3, e[3], e[4], e[5], false);
    SentMeanwhile(w3, RemoveDelete(7, 0, {}));
    RunTwo(w6, e[6], e[7], false);
    ApprovedMeanwhile(w6, RemoveDelete(7, 0, {}));
    RunAppend(w0, [e[0], e[1], e[2]], [e[3], e[4], e[5]] + [e[6], e[7]], false);
    RunAppend(w3, [e[3], e[4], e[5]], [e[6], e[7]], false);
    assert e == [e[0], e[1], e[2]] + ([e[3], e[4], e[5]] + [e[6], e[7]]);
  }

  /** And whatever overlaps, from the start every decision is sound. */
  lemma DecisionsFromTheStart(reg: Registry, events: seq<Event>, serial: bool)
    ensures
      var db := Run(EmptyWorld(reg), events, serial).db;
      && (forall n :: LifeOf(db.history, n) != Illegal)
      && (forall n :: n in db.notes ==> FieldsMatch(db.notes[n]) && LifeOf(db.history, n) == Alive(db.notes[n].stato))
  {
    assert forall n :: LifeOf([], n) == Alive(Bozza);
    DecisionsAreSound(EmptyWorld(reg), events, serial);
  }

  /** A request that dies between two statements keeps what it wrote, and writes no more. */
  lemma CrashStops(w: World, id: RequestId, now: int, serial: bool)
    ensures
      var dead := Step(w, Crash(id), serial);
      && dead.db == w.db && Step(dead, Advance(id, now), serial) == dead
      && (forall other :: other in w.tasks && other != id ==>
            other in dead.tasks && dead.tasks[other] == w.tasks[other])
  {
  }

  // ---------------------------------------------------------------------------
  // The services, one request at a time
  // ---------------------------------------------------------------------------

  function Onward(step: (Db, Outcome), now: int): (Db, Outcome) {
    if step.1.Continues? then Resume(step.0, step.1.task, now) else step
  }

  /** A request with nothing in between: no request has more than three statements. */
  function Uninterrupted(db: Db, r: Request, now: int): (Db, Reply) {
    var step := Onward(Onward(Begin(db, r), now), now);
    (step.0, step.1.reply)
  }

  // What each request answers and does, from the tables before it.

  /** Charged to nobody, to a company there is, or to a mandate there is and its own company. */
  predicate Chargeable(reg: Registry, azienda: Option<AziendaId>, mandato: Option<MandatoId>) {
    && (azienda.Some? ==> azienda.value in reg.aziende)
    && (mandato.Some? ==>
          azienda.Some? && mandato.value in reg.mandati && reg.mandati[mandato.value] == azienda.value)
  }

  lemma ChargeErrors(reg: Registry, azienda: Option<AziendaId>, mandato: Option<MandatoId>)
    ensures
      var error := MandatoAziendaError(reg, azienda, mandato);
      && (error.None? <==> Chargeable(reg, azienda, mandato))
      && (error == Some(AziendaNotFound) <==> azienda.Some? && azienda.value !in reg.aziende)
      && (error == Some(MandatoNotFound) <==>
            && azienda.Some? && azienda.value in reg.aziende
            && mandato.Some? && mandato.value !in reg.mandati)
      && (error.Some? ==> error.value in {AziendaNotFound, MandatoNotFound, MandatoAziendaMismatch})
  {
  }

  /** Note n is changed, and nothing else but the history. */
  predicate ChangesOnly(db: Db, db': Db, n: NotaId) {
    && db' == db.(notes := db'.notes, history := db'.history)
    && db'.notes.Keys == db.notes.Keys && n in db.notes
    && forall m :: m in db.notes && m != n ==> db'.notes[m] == db.notes[m]
  }

  /** A new note is the author's draft with what was given; or the charge is wrong and nothing is. */
  lemma CreateMeans(db: Db, user: UserId, totale: int, metodo: Metodo, azienda: Option<AziendaId>,
                    mandato: Option<MandatoId>, now: int)
    ensures
      var (db', reply) := Uninterrupted(db, Create(user, totale, metodo, azienda, mandato), now);
      if Chargeable(db.registry, azienda, mandato) then
        && reply == Done
        && db' == db.(nextNota := db.nextNota + 1, notes := db.notes[db.nextNota :=
             Nota(user, Bozza, totale, metodo, azienda, mandato, None, None, None, None)])
      else db' == db && Some(reply) == MandatoAziendaError(db.registry, azienda, mandato)
  {
    ChargeErrors(db.registry, azienda, mandato);
  }

  /** An edit by the author, of a draft or a refused note: each field given replaces the old one. */
  lemma UpdateMeans(db: Db, user: UserId, n: NotaId, patch: Patch, now: int)
    ensures
      var (db', reply) := Uninterrupted(db, Update(user, n, patch), now);
      if n !in db.notes || db.notes[n].userId != user then db' == db && reply == NotFound
      else if db.notes[n].stato.Inviata? || db.notes[n].stato.Approvata? then db' == db && reply == NotEditable
      else
        var before := db.notes[n];
        var azienda := if patch.aziendaId.Some? then patch.aziendaId.value else before.aziendaId;
        var mandato := if patch.mandatoId.Some? then patch.mandatoId.value else before.mandatoId;
        if !Chargeable(db.registry, azienda, mandato) then
          db' == db && Some(reply) == MandatoAziendaError(db.registry, azienda, mandato)
        else
          && reply == Done && ChangesOnly(db, db', n) && db'.history == db.history
          && var after := db'.notes[n];
             && after.aziendaId == azienda && after.mandatoId == mandato
             && after.totale == (if patch.totale.Some? then patch.totale.value else before.totale)
             && after.metodo == (if patch.metodo.Some? then patch.metodo.value else before.metodo)
             && after.userId == user && after.stato == before.stato
             && after.inviataAt == before.inviataAt && after.decisaAt == before.decisaAt
             && after.decisaDaId == before.decisaDaId && after.motivoRifiuto == before.motivoRifiuto
  {
    if n in db.notes {
      var before := db.notes[n];
      ChargeErrors(db.registry, if patch.aziendaId.Some? then patch.aziendaId.value else before.aziendaId,
                   if patch.mandatoId.Some? then patch.mandatoId.value else before.mandatoId);
    }
  }

  /** A delete by the author, of a draft: the note, its attachments and their files, and nothing of others'. */
  lemma RemoveMeans(db: Db, user: UserId, n: NotaId, now: int)
    requires FilesOk(db)
    ensures
      var (db', reply) := Uninterrupted(db, Remove(user, n), now);
      if n !in db.notes || db.notes[n].userId != user then db' == db && reply == NotFound
      else if !db.notes[n].stato.Bozza? then db' == db && reply == NotDeletable
      else
        && reply == Done && db' == db.(notes := db.notes - {n}, allegati := db'.allegati, files := db'.files)
        && (forall a :: a in db'.allegati <==> a in db.allegati && db.allegati[a].notaId != n)
        && (forall a :: a in db'.allegati ==>
              db'.allegati[a] == db.allegati[a] && db.allegati[a].storageKey in db'.files)
        && (forall a :: a in db.allegati && db.allegati[a].notaId == n ==> db.allegati[a].storageKey !in db'.files)
        && db'.files <= db.files
  {
  }

  predicate HasKind(db: Db, n: NotaId, tipo: Tipo) {
    exists a :: a in db.allegati && db.allegati[a].notaId == n && db.allegati[a].tipo == tipo
  }

  /** An upload by the author, to an editable note, one of each kind; refused, it leaves no file. */
  lemma UploadMeans(db: Db, user: UserId, n: NotaId, tipo: Tipo, mimeAllowed: bool, now: int)
    ensures
      var (db', reply) := Uninterrupted(db, Upload(user, n, tipo, mimeAllowed), now);
      if n !in db.notes || db.notes[n].userId != user then db' == db && reply == NotFound
      else if db.notes[n].stato.Inviata? || db.notes[n].stato.Approvata? then db' == db && reply == NotEditable
      else if !mimeAllowed then db' == db && reply == MimeInvalid
      else
        && db' == db.(allegati := db'.allegati, files := db'.files, nextAllegato := db'.nextAllegato,
                      nextKey := db.nextKey + 1)
        && (HasKind(db, n, tipo) ==>
              reply == TipoExists && db'.allegati == db.allegati && db'.files == db.files - {db.nextKey})
        && (!HasKind(db, n, tipo) ==>
              && reply == Done && db'.files == db.files + {db.nextKey} && db'.nextAllegato == db.nextAllegato + 1
              && db'.allegati == db.allegati[db.nextAllegato := Allegato(n, tipo, db.nextKey)])
  {
    assert tipo in Kinds(db, n) <==> HasKind(db, n, tipo);
    assert db.files + {db.nextKey} - {db.nextKey} == db.files - {db.nextKey};
  }

  /** An attachment of the note goes, with its file. */
  lemma DetachMeans(db: Db, user: UserId, n: NotaId, a: AllegatoId, now: int)
    ensures
      var (db', reply) := Uninterrupted(db, Detach(user, n, a), now);
      if n !in db.notes || db.notes[n].userId != user then db' == db && reply == NotFound
      else if db.notes[n].stato.Inviata? || db.notes[n].stato.Approvata? then db' == db && reply == NotEditable
      else if a !in db.allegati || db.allegati[a].notaId != n then db' == db && reply == AllegatoNotFound
      else
        && reply == Done
        && db' == db.(allegati := db.allegati - {a}, files := db.files - {db.allegati[a].storageKey})
  {
  }

  /** A sending by the author, of a draft or a refused note that passes both gates: a clean slate, as sent now. */
  lemma InviaMeans(db: Db, user: UserId, n: NotaId, now: int)
    ensures
      var (db', reply) := Uninterrupted(db, Invia(user, n), now);
      if n !in db.notes || db.notes[n].userId != user then db' == db && reply == NotFound
      else if db.notes[n].stato.Inviata? || db.notes[n].stato.Approvata? then db' == db && reply == InvalidTransition
      else
        var nota := db.notes[n];
        if nota.totale > 0 && !HasKind(db, n, Giustificativo) then db' == db && reply == GiustificativoMancante
        else if (nota.metodo.CartaAziendale? || nota.metodo.CartaPersonale?) && !HasKind(db, n, ScontrinoPos) then
          db' == db && reply == ScontrinoMancante
        else
          && reply == Done && ChangesOnly(db, db', n) && db'.history == db.history + [Sent(n)]
          && db'.notes[n] == Nota(user, Inviata, nota.totale, nota.metodo, nota.aziendaId, nota.mandatoId,
                                  Some(now), None, None, None)
  {
    assert forall tipo :: tipo in Kinds(db, n) <==> HasKind(db, n, tipo);
  }

  predicate Blank(s: string) {
    forall i :: 0 <= i < |s| ==> IsSpace(s[i])
  }

  /** r is s without the blanks around it. */
  ghost predicate Stripped(s: string, r: string) {
    && (exists a, b :: Blank(a) && Blank(b) && s == a + r + b)
    && (r != "" ==> !IsSpace(r[0]) && !IsSpace(r[|r| - 1]))
  }

  lemma {:induction false} StartStrips(s: string) returns (a: string)
    ensures Blank(a) && s == a + TrimStart(s)
  {
    a := "";
    if s != "" && IsSpace(s[0]) {
      a := StartStrips(s[1..]);
      assert s == [s[0]] + s[1..];
      a := [s[0]] + a;
    }
  }

  lemma {:induction false} EndStrips(s: string) returns (b: string)
    ensures Blank(b) && s == TrimEnd(s) + b
  {
    b := "";
    if s != "" && IsSpace(s[|s| - 1]) {
      b := EndStrips(s[..|s| - 1]);
      assert s == s[..|s| - 1] + [s[|s| - 1]];
      b := b + [s[|s| - 1]];
    }
  }

  lemma TrimStrips(s: string)
    ensures Stripped(s, Trim(s)) && (Trim(s) == "" <==> Blank(s))
  {
    var a := StartStrips(s);
    var b := EndStrips(TrimStart(s));
    assert s == a + Trim(s) + b;
    if Trim(s) != "" { assert s[|a|] == Trim(s)[0] && TrimStart(s)[0] == Trim(s)[0]; }
  }

  /** A decision, by somebody else, of a sent note. */
  predicate Decides(db: Db, db': Db, reply: Reply, user: UserId, n: NotaId, stato: Stato, motivo: Option<string>,
                    now: int)
  {
    if n !in db.notes then db' == db && reply == NotFound
    else if db.notes[n].userId == user then db' == db && reply == AutoDecisione
    else if !db.notes[n].stato.Inviata? then db' == db && reply == InvalidTransition
    else
      var nota := db.notes[n];
      && reply == Done && ChangesOnly(db, db', n) && db'.history == db.history + [Decided(n, stato)]
      && db'.notes[n] == Nota(nota.userId, stato, nota.totale, nota.metodo, nota.aziendaId, nota.mandatoId,
                              nota.inviataAt, Some(now), Some(user), motivo)
  }

  /** An approval gives no reason; a refusal gives one, stripped, and without one is not made. */
  lemma DecisionsMean(db: Db, user: UserId, n: NotaId, motivo: string, now: int)
    ensures
      var (db', reply) := Uninterrupted(db, Approva(user, n), now);
      Decides(db, db', reply, user, n, Approvata, None, now)
    ensures
      var (db', reply) := Uninterrupted(db, Respingi(user, n, motivo), now);
      if Blank(motivo) then db' == db && reply == MotivoRichiesto
      else exists clean :: Stripped(motivo, clean) && Decides(db, db', reply, user, n, Respinta, Some(clean), now)
  {
    TrimStrips(motivo);
    var (db', reply) := Uninterrupted(db, Respingi(user, n, motivo), now);
    if Trim(motivo) != "" {
      assert Decides(db, db', reply, user, n, Respinta, Some(Trim(motivo)), now);
    }
  }

  class NoteSpeseService {
    const registry: Registry
    var notes: map<NotaId, Nota>
    var allegati: map<AllegatoId, Allegato>
    var files: set<StorageKey>
    var nextNota: NotaId
    var nextAllegato: AllegatoId
    var nextKey: StorageKey
    ghost var history: seq<Transition>

    ghost function View(): Db
      reads this
    {
      Db(registry, notes, allegati, files, nextNota, nextAllegato, nextKey, history)
    }

    constructor (reg: Registry)
      ensures View() == EmptyWorld(reg).db
    {
      registry := reg;
      notes, allegati, files := map[], map[], {};
      nextNota, nextAllegato, nextKey, history := 0, 0, 0, [];
    }

    method AssertOwnEditable(user: UserId, n: NotaId) returns (error: Option<Reply>)
      ensures error == OwnEditableError(View(), user, n)
    {
      if n !in notes || notes[n].userId != user { return Some(NotFound); }
      error := if notes[n].stato.Bozza? || notes[n].stato.Respinta? then None else Some(NotEditable);
    }

    method CreateNota(user: UserId, totale: int, metodo: Metodo, azienda: Option<AziendaId>, mandato: Option<MandatoId>,
                      ghost now: int)
      returns (reply: Reply)
      modifies this
      ensures (View(), reply) == Uninterrupted(old(View()), Create(user, totale, metodo, azienda, mandato), now)
    {
      var error := MandatoAziendaError(registry, azienda, mandato);
      if error.Some? { return error.value; }
      notes := notes[nextNota := Nota(user, Bozza, totale, metodo, azienda, mandato, None, None, None, None)];
      nextNota := nextNota + 1;
      reply := Done;
    }

    method UpdateNota(user: UserId, n: NotaId, patch: Patch, ghost now: int) returns (reply: Reply)
      modifies this
      ensures (View(), reply) == Uninterrupted(old(View()), Update(user, n, patch), now)
    {
      var error := AssertOwnEditable(user, n);
      if error.Some? { return error.value; }
      var nota := notes[n];
      var azienda := if patch.aziendaId.Some? then patch.aziendaId.value else nota.aziendaId;
      var mandato := if patch.mandatoId.Some? then patch.mandatoId.value else nota.mandatoId;
      error := MandatoAziendaError(registry, azienda, mandato);
      if error.Some? { return error.value; }
      if patch.totale.Some? { nota := nota.(totale := patch.totale.value); }
      if patch.metodo.Some? { nota := nota.(metodo := patch.metodo.value); }
      if patch.aziendaId.Some? { nota := nota.(aziendaId := patch.aziendaId.value); }
      if patch.mandatoId.Some? { nota := nota.(mandatoId := patch.mandatoId.value); }
      notes := notes[n := nota];
      reply := Done;
    }

    /** One by one. */
    method DeleteFiles(keys: set<StorageKey>)
      modifies this`files
      ensures files == old(files) - keys
    {
      var left := keys;
      while left != {}
        invariant left <= keys && files == old(files) - (keys - left)
        decreases |left|
      {
        var key :| key in left;
        files := files - {key};
        left := left - {key};
      }
      assert keys - left == keys;
    }

    /** Only a draft is deleted; the rows of its attachments cascade, then each file goes. */
    method RemoveNota(user: UserId, n: NotaId, ghost now: int) returns (reply: Reply)
      modifies this
      ensures (View(), reply) == Uninterrupted(old(View()), Remove(user, n), now)
    {
      if n !in notes || notes[n].userId != user { return NotFound; }
      if !notes[n].stato.Bozza? { return NotDeletable; }
      var keys := set a | a in allegati && allegati[a].notaId == n :: allegati[a].storageKey;
      assert keys == KeysOf(View(), n);
      notes := notes - {n};
      allegati := allegati - set a | a in allegati && allegati[a].notaId == n;
      DeleteFiles(keys);
      reply := Done;
    }

    method UploadAllegato(user: UserId, n: NotaId, tipo: Tipo, mimeAllowed: bool, ghost now: int) returns (reply: Reply)
      modifies this
      ensures (View(), reply) == Uninterrupted(old(View()), Upload(user, n, tipo, mimeAllowed), now)
    {
      var error := AssertOwnEditable(user, n);
      if error.Some? { return error.value; }
      if !mimeAllowed { return MimeInvalid; }
      var key := nextKey;
      files, nextKey := files + {key}, nextKey + 1;
      if exists a :: a in allegati && allegati[a].notaId == n && allegati[a].tipo == tipo {
        assert tipo in Kinds(old(View()), n);
        files := files - {key};
        return TipoExists;
      }
      assert tipo !in Kinds(old(View()), n);
      allegati := allegati[nextAllegato := Allegato(n, tipo, key)];
      nextAllegato := nextAllegato + 1;
      reply := Done;
    }

    method RemoveAllegato(user: UserId, n: NotaId, a: AllegatoId, ghost now: int) returns (reply: Reply)
      modifies this
      ensures (View(), reply) == Uninterrupted(old(View()), Detach(user, n, a), now)
    {
      var error := AssertOwnEditable(user, n);
      if error.Some? { return error.value; }
      if a !in allegati || allegati[a].notaId != n { return AllegatoNotFound; }
      var key := allegati[a].storageKey;
      allegati := allegati - {a};
      files := files - {key};
      reply := Done;
    }

    method InviaNota(user: UserId, n: NotaId, now: int) returns (reply: Reply)
      modifies this
      ensures (View(), reply) == Uninterrupted(old(View()), Invia(user, n), now)
      ensures reply == Done ==> n in notes && GatesHold(View(), n)
    {
      if n !in notes || notes[n].userId != user { return NotFound; }
      var nota := notes[n];
      if !Editable(nota.stato) { return InvalidTransition; }
      var kinds := set a | a in allegati && allegati[a].notaId == n :: allegati[a].tipo;
      assert kinds == Kinds(View(), n);
      if nota.totale > 0 && Giustificativo !in kinds { return GiustificativoMancante; }
      if Carta(nota.metodo) && ScontrinoPos !in kinds { return ScontrinoMancante; }
      notes := notes[n := nota.(stato := Inviata, inviataAt := Some(now),
                                decisaAt := None, decisaDaId := None, motivoRifiuto := None)];
      history := history + [Sent(n)];
      assert Kinds(View(), n) == kinds;
      reply := Done;
    }

    method Decidi(user: UserId, n: NotaId, target: Stato, motivo: Option<string>, now: int) returns (reply: Reply)
      modifies this
      ensures (View(), Replied(reply)) ==
        Onward((old(View()), BeginDecision(old(View()), user, n, target, motivo)), now)
      ensures reply == Done ==> user != old(notes)[n].userId && old(notes)[n].stato.Inviata?
    {
      if n !in notes { return NotFound; }
      var nota := notes[n];
      if nota.userId == user { return AutoDecisione; }
      if !nota.stato.Inviata? { return InvalidTransition; }
      nota := nota.(stato := target, decisaAt := Some(now), decisaDaId := Some(user), motivoRifiuto := motivo);
      notes := notes[n := nota];
      history := history + [Decided(n, target)];
      reply := Done;
    }

    method ApprovaNota(user: UserId, n: NotaId, now: int) returns (reply: Reply)
      modifies this
      ensures (View(), reply) == Uninterrupted(old(View()), Approva(user, n), now)
    {
      reply := Decidi(user, n, Approvata, None, now);
    }

    method RespingiNota(user: UserId, n: NotaId, motivo: string, now: int) returns (reply: Reply)
      modifies this
      ensures (View(), reply) == Uninterrupted(old(View()), Respingi(user, n, motivo), now)
    {
      var motivoClean := Trim(motivo);
      if motivoClean == "" { return MotivoRichiesto; }
      reply := Decidi(user, n, Respinta, Some(motivoClean), now);
    }
  }
}