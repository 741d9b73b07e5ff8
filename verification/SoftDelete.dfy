/**
 * The soft-delete extension (packages/db/src/soft-delete.ts): what it does to the arguments
 * of a read, what a delete becomes, and forceDelete. The reference it is compared with is a
 * table that really deletes.
 *
 * A where object keeps the shape the extension looks at: the keys of its top level, and the
 * AND, OR and NOT lists nested below. Conditions are evaluated in the three-valued logic of
 * SQL, because a NOT around a condition on a null column is neither true nor false.
 */
module SoftDelete {
  import opened Prelude

  type Id = nat
  type Time = nat
  type Value = int

  datatype Field = IdField | DeletedAt | Column(name: nat)

  /** Undefined: the key is there, with the value undefined, which Prisma reads as no condition. */
  datatype Cond = Undefined | Equals(value: Option<Value>) | Lte(limit: Value) | In(values: seq<Value>)
    | Not(cond: Cond)

  datatype Where = Where(fields: map<Field, Cond>, all: seq<Where>, any: Alternatives, none: seq<Where>)

  /** The OR list, if there is one. */
  datatype Alternatives = Absent | AnyOf(wheres: seq<Where>)

  datatype Row = Row(id: Id, deletedAt: Option<Time>, columns: map<nat, Value>)

  datatype Truth = Yes | No | Unknown

  function And(a: Truth, b: Truth): Truth {
    if a.No? || b.No? then No else if a.Yes? && b.Yes? then Yes else Unknown
  }

  function Or(a: Truth, b: Truth): Truth {
    if a.Yes? || b.Yes? then Yes else if a.No? && b.No? then No else Unknown
  }

  function Neg(a: Truth): Truth {
    match a
    case Yes => No
    case No => Yes
    case Unknown => Unknown
  }

  function Decide(b: bool): Truth {
    if b then Yes else No
  }

  function Cell(row: Row, f: Field): Option<Value> {
    match f
    case IdField => Some(row.id)
    case DeletedAt => if row.deletedAt.Some? then Some(row.deletedAt.value) else None
    case Column(name) => if name in row.columns then Some(row.columns[name]) else None
  }

  /** No condition at all, also under any number of negations. */
  predicate Unconditional(c: Cond) {
    c.Undefined? || (c.Not? && Unconditional(c.cond))
  }

  function EvalCond(c: Cond, cell: Option<Value>): Truth {
    match c
    case Undefined => Yes
    case Equals(value) =>
      if value.None? then Decide(cell.None?) else if cell.None? then Unknown else Decide(cell == value)
    case Lte(limit) => if cell.None? then Unknown else Decide(cell.value <= limit)
    case In(values) => if cell.None? then Unknown else Decide(cell.value in values)
    case Not(inner) => if Unconditional(inner) then Yes else Neg(EvalCond(inner, cell))
  }

  function EvalFields(fields: map<Field, Cond>, row: Row): Truth {
    if exists f :: f in fields && EvalCond(fields[f], Cell(row, f)).No? then No
    else if forall f :: f in fields ==> EvalCond(fields[f], Cell(row, f)).Yes? then Yes
    else Unknown
  }

  function Eval(w: Where, row: Row): Truth
    decreases w
  {
    And(EvalFields(w.fields, row),
        And(EvalAll(w.all, row),
            And(if w.any.Absent? then Yes else EvalAny(w.any.wheres, row), EvalNone(w.none, row))))
  }

  function EvalAll(ws: seq<Where>, row: Row): Truth
    decreases ws
  {
    if ws == [] then Yes else And(Eval(ws[0], row), EvalAll(ws[1..], row))
  }

  /** An empty OR list finds nothing. */
  function EvalAny(ws: seq<Where>, row: Row): Truth
    decreases ws
  {
    if ws == [] then No else Or(Eval(ws[0], row), EvalAny(ws[1..], row))
  }

  function EvalNone(ws: seq<Where>, row: Row): Truth
    decreases ws
  {
    if ws == [] then Yes else And(Neg(Eval(ws[0], row)), EvalNone(ws[1..], row))
  }

  predicate Matches(w: Where, row: Row) {
    Eval(w, row).Yes?
  }

  predicate Rejects(w: Where, row: Row) {
    Eval(w, row).No?
  }

  lemma {:induction false} AllMeans(ws: seq<Where>, row: Row)
    ensures EvalAll(ws, row).Yes? <==> forall w :: w in ws ==> Matches(w, row)
    ensures EvalAll(ws, row).No? <==> exists w :: w in ws && Rejects(w, row)
  {
    if ws != [] {
      AllMeans(ws[1..], row);
      HeadOrTail(ws);
      assert Matches(ws[0], row) == Eval(ws[0], row).Yes? && Rejects(ws[0], row) == Eval(ws[0], row).No?;
    }
  }

  lemma {:induction false} AnyMeans(ws: seq<Where>, row: Row)
    ensures EvalAny(ws, row).Yes? <==> exists w :: w in ws && Matches(w, row)
    ensures EvalAny(ws, row).No? <==> forall w :: w in ws ==> Rejects(w, row)
  {
    if ws != [] {
      AnyMeans(ws[1..], row);
      HeadOrTail(ws);
      assert Matches(ws[0], row) == Eval(ws[0], row).Yes? && Rejects(ws[0], row) == Eval(ws[0], row).No?;
    }
  }

  lemma {:induction false} NoneMeans(ws: seq<Where>, row: Row)
    ensures EvalNone(ws, row).Yes? <==> forall w :: w in ws ==> Rejects(w, row)
    ensures EvalNone(ws, row).No? <==> exists w :: w in ws && Matches(w, row)
  {
    if ws != [] {
      NoneMeans(ws[1..], row);
      HeadOrTail(ws);
      assert Matches(ws[0], row) == Eval(ws[0], row).Yes? && Rejects(ws[0], row) == Eval(ws[0], row).No?;
    }
  }

  lemma HeadOrTail(ws: seq<Where>)
    requires ws != []
    ensures forall w :: w in ws <==> w == ws[0] || w in ws[1..]
  {
  }

  lemma FieldsMean(fields: map<Field, Cond>, row: Row)
    ensures EvalFields(fields, row).Yes? <==> forall f :: f in fields ==> EvalCond(fields[f], Cell(row, f)).Yes?
    ensures EvalFields(fields, row).No? <==> exists f :: f in fields && EvalCond(fields[f], Cell(row, f)).No?
  {
  }

  /** The three-valued AND of the four parts, and when it is true or false. */
  lemma PartsMean(w: Where, row: Row)
    ensures
      var any := if w.any.Absent? then Yes else EvalAny(w.any.wheres, row);
      && (Matches(w, row) <==>
            EvalFields(w.fields, row).Yes? && EvalAll(w.all, row).Yes? && any.Yes? && EvalNone(w.none, row).Yes?)
      && (Rejects(w, row) <==>
            EvalFields(w.fields, row).No? || EvalAll(w.all, row).No? || any.No? || EvalNone(w.none, row).No?)
  {
  }

  /**
   * A where is a conjunction: its fields, its AND list, one of its OR list if it has one, and
   * none of its NOT list. On null columns it may neither match a row nor reject it.
   */
  lemma WhereMeans(w: Where, row: Row)
    ensures Matches(w, row) <==>
      && (forall f :: f in w.fields ==> EvalCond(w.fields[f], Cell(row, f)).Yes?)
      && (forall u :: u in w.all ==> Matches(u, row))
      && (w.any.AnyOf? ==> exists u :: u in w.any.wheres && Matches(u, row))
      && (forall u :: u in w.none ==> Rejects(u, row))
    ensures Rejects(w, row) <==>
      || (exists f :: f in w.fields && EvalCond(w.fields[f], Cell(row, f)).No?)
      || (exists u :: u in w.all && Rejects(u, row))
      || (w.any.AnyOf? && forall u :: u in w.any.wheres ==> Rejects(u, row))
      || (exists u :: u in w.none && Matches(u, row))
  {
    PartsMean(w, row);
    FieldsMean(w.fields, row);
    AllMeans(w.all, row);
    NoneMeans(w.none, row);
    if w.any.AnyOf? { AnyMeans(w.any.wheres, row); }
  }

  /** One condition on one column, which may be null; a condition undefined holds of everything. */
  lemma {:induction false} CondMeans(c: Cond, cell: Option<Value>)
    ensures c.Undefined? ==> EvalCond(c, cell).Yes?
    ensures c == Equals(None) ==> (EvalCond(c, cell).Yes? <==> cell.None?) && (EvalCond(c, cell).No? <==> cell.Some?)
    ensures (c.Lte? || c.In? || (c.Equals? && c.value.Some?)) ==> (EvalCond(c, cell).Unknown? <==> cell.None?)
    ensures c.Equals? && c.value.Some? ==> (EvalCond(c, cell).Yes? <==> cell == c.value)
    ensures c.Lte? ==> (EvalCond(c, cell).Yes? <==> cell.Some? && cell.value <= c.limit)
    ensures c.In? ==> (EvalCond(c, cell).Yes? <==> cell.Some? && cell.value in c.values)
    ensures c.Not? && EvalCond(c.cond, cell).Unknown? ==> EvalCond(c, cell).Unknown?
    ensures c.Not? && EvalCond(c.cond, cell).No? ==> EvalCond(c, cell).Yes?
    ensures c.Not? && EvalCond(c.cond, cell).Yes? && !Unconditional(c.cond) ==> EvalCond(c, cell).No?
    ensures Unconditional(c) ==> EvalCond(c, cell).Yes?
  {
    if c.Not? { CondMeans(c.cond, cell); }
  }

  // ---------------------------------------------------------------------------
  // The extension
  // ---------------------------------------------------------------------------

  /** The six reads that are intercepted, and the ones that are not. */
  datatype ReadKind = FindUnique | FindFirst | FindMany | Count | Aggregate | GroupBy | FindUniqueOrThrow
    | FindFirstOrThrow

  predicate Intercepted(kind: ReadKind) {
    !kind.FindUniqueOrThrow? && !kind.FindFirstOrThrow?
  }

  predicate ExplicitDeletedAt(w: Where) {
    DeletedAt in w.fields
  }

  function WithSoftDeleteFilter(w: Where): Where {
    w.(fields := w.fields[DeletedAt := Equals(None)])
  }

  predicate Filtered(kind: ReadKind, w: Where) {
    Intercepted(kind) && !ExplicitDeletedAt(w)
  }

  /** The where the database gets. */
  function Effective(kind: ReadKind, w: Where): Where {
    if Filtered(kind, w) then WithSoftDeleteFilter(w) else w
  }

  datatype Deletion = Keep | Stamp(at: Time) | Restore

  datatype Change = Change(columns: map<nat, Value>, deletion: Deletion)

  datatype Op =
    | Read(kind: ReadKind, where: Where)
    | Create(id: Id, columns: map<nat, Value>)
    | Update(where: Where, change: Change)
    | UpdateMany(where: Where, change: Change)
    | Delete(where: Where, now: Time)
    | DeleteMany(where: Where, now: Time)
    | ForceDelete(id: Id)

  /** Aggregated: what an aggregate or a grouping is computed from. */
  datatype Outcome =
    | Rows(rows: seq<Row>) | First(row: Option<Row>) | Aggregated(over: seq<Row>)
    | Done | NotFound | Duplicate | Affected(count: nat)

  predicate FindsOne(kind: ReadKind) {
    kind.FindUnique? || kind.FindFirst? || kind.FindUniqueOrThrow? || kind.FindFirstOrThrow?
  }

  /** What a read makes of the rows it selects. */
  function Answer(kind: ReadKind, rows: seq<Row>): Outcome {
    if FindsOne(kind) then
      (if rows != [] then First(Some(rows[0]))
       else if kind.FindUnique? || kind.FindFirst? then First(None) else NotFound)
    else if kind.FindMany? then Rows(rows)
    else if kind.Count? then Affected(|rows|)
    else Aggregated(rows)
  }

  type Table = seq<Row>

  function Select(t: Table, w: Where): Table {
    if t == [] then [] else if Matches(w, t[0]) then [t[0]] + Select(t[1..], w) else Select(t[1..], w)
  }

  function Remove(t: Table, w: Where): Table {
    if t == [] then [] else if Matches(w, t[0]) then Remove(t[1..], w) else [t[0]] + Remove(t[1..], w)
  }

  function Touch(row: Row, c: Change): Row {
    var at := match c.deletion case Keep => row.deletedAt case Stamp(at) => Some(at) case Restore => None;
    Row(row.id, at, row.columns + c.columns)
  }

  function Rewrite(t: Table, w: Where, c: Change): Table {
    if t == [] then [] else [if Matches(w, t[0]) then Touch(t[0], c) else t[0]] + Rewrite(t[1..], w, c)
  }

  /** The rows that are not in the trash. */
  function Live(t: Table): Table {
    if t == [] then [] else if t[0].deletedAt.None? then [t[0]] + Live(t[1..]) else Live(t[1..])
  }

  predicate HasId(t: Table, id: Id) {
    exists i :: 0 <= i < |t| && t[i].id == id
  }

  predicate AnyMatch(t: Table, w: Where) {
    exists i :: 0 <= i < |t| && Matches(w, t[i])
  }

  function ById(id: Id): Where {
    Where(map[IdField := Equals(Some(id))], [], Absent, [])
  }

  /** One operation through the extended client. */
  function Soft(t: Table, op: Op): (Table, Outcome) {
    match op
    case Read(kind, w) => (t, Answer(kind, Select(t, Effective(kind, w))))
    case Create(id, columns) => if HasId(t, id) then (t, Duplicate) else (t + [Row(id, None, columns)], Done)
    case Update(w, c) => if AnyMatch(t, w) then (Rewrite(t, w, c), Done) else (t, NotFound)
    case UpdateMany(w, c) => (Rewrite(t, w, c), Affected(|Select(t, w)|))
    case Delete(w, now) => if AnyMatch(t, w) then (Rewrite(t, w, Change(map[], Stamp(now))), Done) else (t, NotFound)
    case DeleteMany(w, now) => (Rewrite(t, w, Change(map[], Stamp(now))), Affected(|Select(t, w)|))
    case ForceDelete(id) => (Remove(t, ById(id)), Affected(|Select(t, ById(id))|))
  }

  function RewriteHard(t: Table, w: Where, c: Change): Table {
    if c.deletion.Stamp? then Remove(t, w) else Rewrite(t, w, c)
  }

  /** The same operation on a table that has no trash: deleting, or stamping, removes the row. */
  function Hard(t: Table, op: Op): (Table, Outcome) {
    match op
    case Read(kind, w) => (t, Answer(kind, Select(t, w)))
    case Create(id, columns) => if HasId(t, id) then (t, Duplicate) else (t + [Row(id, None, columns)], Done)
    case Update(w, c) => if AnyMatch(t, w) then (RewriteHard(t, w, c), Done) else (t, NotFound)
    case UpdateMany(w, c) => (RewriteHard(t, w, c), Affected(|Select(t, w)|))
    case Delete(w, _) => if AnyMatch(t, w) then (Remove(t, w), Done) else (t, NotFound)
    case DeleteMany(w, _) => (Remove(t, w), Affected(|Select(t, w)|))
    case ForceDelete(id) => (Remove(t, ById(id)), Affected(|Select(t, ById(id))|))
  }

  // ---------------------------------------------------------------------------
  // Reads
  // ---------------------------------------------------------------------------

  predicate TrashMatches(t: Table, w: Where) {
    exists i :: 0 <= i < |t| && t[i].deletedAt.Some? && Matches(w, t[i])
  }

  lemma FilterMatches(w: Where, row: Row)
    requires !ExplicitDeletedAt(w)
    ensures Matches(WithSoftDeleteFilter(w), row) <==> Matches(w, row) && row.deletedAt.None?
  {
    var w' := WithSoftDeleteFilter(w);
    assert EvalCond(Equals(None), Cell(row, DeletedAt)) == Decide(row.deletedAt.None?);
    assert w'.fields[DeletedAt] == Equals(None);
    assert forall f :: f in w.fields ==> f in w'.fields && w'.fields[f] == w.fields[f];
    if row.deletedAt.Some? {
      assert EvalFields(w'.fields, row).No?;
    } else {
      assert EvalFields(w'.fields, row).Yes? <==> EvalFields(w.fields, row).Yes?;
    }
  }

  /**
   * A read with no deletedAt at the top of its where, whatever is nested below, sees exactly
   * what the raw read sees on the live rows.
   */
  lemma {:induction false} FilteredReadIsLiveRead(t: Table, w: Where)
    requires !ExplicitDeletedAt(w)
    ensures Select(t, WithSoftDeleteFilter(w)) == Select(Live(t), w)
  {
    if t == [] {
    } else {
      FilterMatches(w, t[0]);
      FilteredReadIsLiveRead(t[1..], w);
      if t[0].deletedAt.None? {
        assert Live(t)[0] == t[0] && Live(t)[1..] == Live(t[1..]);
      }
    }
  }

  /** The row is there for a read: it matches, and is not in the trash unless that is asked for. */
  predicate Found(kind: ReadKind, w: Where, row: Row) {
    && Matches(w, row)
    && (row.deletedAt.None? || DeletedAt in w.fields || kind.FindUniqueOrThrow? || kind.FindFirstOrThrow?)
  }

  lemma {:induction false} FirstSelected(t: Table, w: Where)
    ensures Select(t, w) == [] <==> forall row :: row in t ==> !Matches(w, row)
    ensures Select(t, w) != [] ==>
      exists i :: 0 <= i < |t| && t[i] == Select(t, w)[0] && Matches(w, t[i]) &&
                  forall j :: 0 <= j < i ==> !Matches(w, t[j])
  {
    if t != [] {
      var rest := t[1..];
      FirstSelected(rest, w);
      if Matches(w, t[0]) {
        assert t[0] == Select(t, w)[0];
      } else if Select(rest, w) != [] {
        var i :| 0 <= i < |rest| && rest[i] == Select(rest, w)[0] && Matches(w, rest[i])
          && forall j :: 0 <= j < i ==> !Matches(w, rest[j]);
        assert t[i + 1] == rest[i] && forall j :: 0 < j < i + 1 ==> t[j] == rest[j - 1];
      }
    }
  }

  /** Where the rows that match are. */
  function Hits(t: Table, w: Where): set<nat> {
    set i | 0 <= i < |t| && Matches(w, t[i])
  }

  lemma {:induction false} SelectedSize(t: Table, w: Where)
    ensures |Select(t, w)| == |Hits(t, w)|
    decreases |t|
  {
    if t == [] {
      assert Hits(t, w) == {};
    } else {
      SelectedSize(t[..|t| - 1], w);
      SelectLast(t, w);
      HitsGrow(t, w);
    }
  }

  lemma HitsGrow(t: Table, w: Where)
    requires t != []
    ensures
      var front := t[..|t| - 1];
      Hits(t, w) == Hits(front, w) + (if Matches(w, t[|t| - 1]) then {|front|} else {}) && |front| !in Hits(front, w)
  {
    var front := t[..|t| - 1];
    forall i: nat ensures i in Hits(t, w) <==> i in Hits(front, w) || (i == |front| && Matches(w, t[i])) {
      if i < |front| { assert front[i] == t[i]; }
    }
  }

  lemma {:induction false} SelectLast(t: Table, w: Where)
    requires t != []
    ensures
      Select(t, w) == Select(t[..|t| - 1], w) + if Matches(w, t[|t| - 1]) then [t[|t| - 1]] else []
  {
    if |t| > 1 {
      SelectLast(t[1..], w);
      assert t[1..][..|t| - 2] == t[..|t| - 1][1..];
    }
  }

  lemma EffectiveMeans(kind: ReadKind, w: Where, row: Row)
    ensures Matches(Effective(kind, w), row) <==> Found(kind, w, row)
  {
    if Filtered(kind, w) { FilterMatches(w, row); }
  }

  /**
   * The reads, each by its answer. The four that find one row give the first that is there,
   * and without one null or, the last two, an error; a count counts; the rest work on the rows.
   */
  lemma ReadsAnswer(t: Table, kind: ReadKind, w: Where)
    ensures
      var (after, answer) := Soft(t, Read(kind, w));
      && after == t
      && match kind
         case FindMany => answer.Rows? && forall row :: row in answer.rows <==> row in t && Found(kind, w, row)
         case Count => answer == Affected(|set i | 0 <= i < |t| && Found(kind, w, t[i])|)
         case Aggregate => answer.Aggregated? && forall row :: row in answer.over <==> row in t && Found(kind, w, row)
         case GroupBy => answer.Aggregated? && forall row :: row in answer.over <==> row in t && Found(kind, w, row)
         case _ =>
           if forall row :: row in t ==> !Found(kind, w, row)
           then answer == if kind.FindUnique? || kind.FindFirst? then First(None) else NotFound
           else
             exists i :: 0 <= i < |t| && answer == First(Some(t[i])) && Found(kind, w, t[i]) &&
                         forall j :: 0 <= j < i ==> !Found(kind, w, t[j])
  {
    var e := Effective(kind, w);
    forall row ensures Matches(e, row) <==> Found(kind, w, row) { EffectiveMeans(kind, w, row); }
    SelectIsMatching(t, e);
    FirstSelected(t, e);
    SelectedSize(t, e);
    assert Hits(t, e) == set i | 0 <= i < |t| && Found(kind, w, t[i]);
  }

  /** What the trash adds to a read that is not filtered. */
  lemma {:induction false} SelectSplits(t: Table, w: Where)
    ensures |Select(Live(t), w)| <= |Select(t, w)|
    ensures TrashMatches(t, w) <==> |Select(Live(t), w)| < |Select(t, w)|
    ensures !TrashMatches(t, w) ==> Select(Live(t), w) == Select(t, w)
  {
    if t == [] {
    } else {
      var rest := t[1..];
      SelectSplits(rest, w);
      assert TrashMatches(t, w) <==> (t[0].deletedAt.Some? && Matches(w, t[0])) || TrashMatches(rest, w) by {
        if TrashMatches(rest, w) {
          var i :| 0 <= i < |rest| && rest[i].deletedAt.Some? && Matches(w, rest[i]);
          assert t[i + 1] == rest[i];
        }
        if TrashMatches(t, w) && !(t[0].deletedAt.Some? && Matches(w, t[0])) {
          var i :| 0 <= i < |t| && t[i].deletedAt.Some? && Matches(w, t[i]);
          assert rest[i - 1] == t[i];
        }
      }
      if t[0].deletedAt.None? {
        assert Live(t)[0] == t[0] && Live(t)[1..] == Live(rest);
      }
    }
  }

  /** The first row a read finds is in the trash. */
  predicate FirstInTrash(t: Table, w: Where) {
    Select(t, w) != [] && Select(t, w)[0].deletedAt.Some?
  }

  lemma {:induction false} SelectIsMatching(t: Table, w: Where)
    ensures forall row :: row in Select(t, w) <==> row in t && Matches(w, row)
  {
    if t == [] {
    } else {
      SelectIsMatching(t[1..], w);
    }
  }

  /** The first match is the first live match, unless it is in the trash. */
  lemma {:induction false} FirstIsLive(t: Table, w: Where)
    ensures Answer(FindFirst, Select(t, w)) == Answer(FindFirst, Select(Live(t), w)) <==> !FirstInTrash(t, w)
  {
    if t == [] {
    } else {
      var rest := t[1..];
      if t[0].deletedAt.None? {
        assert Live(t)[0] == t[0] && Live(t)[1..] == Live(rest);
      }
      if Matches(w, t[0]) {
        if t[0].deletedAt.Some? && Select(Live(t), w) != [] {
          SelectIsMatching(Live(t), w);
          assert Select(Live(t), w)[0] in Live(t);
          LiveRows(t, Select(Live(t), w)[0]);
        }
      } else {
        FirstIsLive(rest, w);
      }
    }
  }

  // ---------------------------------------------------------------------------
  // Writes
  // ---------------------------------------------------------------------------

  lemma {:induction false} StampIsRemove(t: Table, w: Where, c: Change)
    requires c.deletion.Stamp?
    ensures Live(Rewrite(t, w, c)) == Remove(Live(t), w)
  {
    if t == [] {
    } else {
      StampIsRemove(t[1..], w, c);
      assert Rewrite(t, w, c)[1..] == Rewrite(t[1..], w, c);
      if t[0].deletedAt.None? {
        assert Live(t)[0] == t[0] && Live(t)[1..] == Live(t[1..]);
      }
    }
  }

  lemma {:induction false} KeepRewritesLive(t: Table, w: Where, c: Change)
    requires !c.deletion.Stamp?
    ensures |Live(Rewrite(t, w, c))| >= |Live(t)| == |Rewrite(Live(t), w, c)|
    ensures c.deletion.Keep? || !TrashMatches(t, w) ==> Live(Rewrite(t, w, c)) == Rewrite(Live(t), w, c)
    ensures c.deletion.Restore? && TrashMatches(t, w) ==> |Live(Rewrite(t, w, c))| > |Live(t)|
  {
    if t == [] {
    } else {
      var rest := t[1..];
      KeepRewritesLive(rest, w, c);
      assert Rewrite(t, w, c)[1..] == Rewrite(rest, w, c);
      assert TrashMatches(rest, w) ==> TrashMatches(t, w) by {
        if TrashMatches(rest, w) {
          var i :| 0 <= i < |rest| && rest[i].deletedAt.Some? && Matches(w, rest[i]);
          assert t[i + 1] == rest[i];
        }
      }
      assert TrashMatches(t, w) ==> (t[0].deletedAt.Some? && Matches(w, t[0])) || TrashMatches(rest, w) by {
        if TrashMatches(t, w) {
          var i :| 0 <= i < |t| && t[i].deletedAt.Some? && Matches(w, t[i]);
          assert i > 0 ==> rest[i - 1] == t[i];
        }
      }
      if t[0].deletedAt.None? {
        assert Live(t)[0] == t[0] && Live(t)[1..] == Live(rest);
      }
    }
  }

  lemma {:induction false} RemoveCommutes(t: Table, w: Where)
    ensures Live(Remove(t, w)) == Remove(Live(t), w)
  {
    if t == [] {
    } else {
      RemoveCommutes(t[1..], w);
      if t[0].deletedAt.None? {
        assert Live(t)[0] == t[0] && Live(t)[1..] == Live(t[1..]);
      }
      if !Matches(w, t[0]) {
        assert Remove(t, w)[0] == t[0] && Remove(t, w)[1..] == Remove(t[1..], w);
      }
    }
  }

  lemma {:induction false} LiveAppends(t: Table, row: Row)
    ensures Live(t + [row]) == Live(t) + Live([row])
  {
    if t == [] {
      assert t + [row] == [row];
    } else {
      LiveAppends(t[1..], row);
      assert (t + [row])[1..] == t[1..] + [row];
    }
  }

  /** Without a matching row, a rewrite and a removal change nothing. */
  lemma {:induction false} NoMatchNoChange(t: Table, w: Where, c: Change)
    requires !AnyMatch(t, w)
    ensures Rewrite(t, w, c) == t && Remove(t, w) == t
  {
    if t == [] {
    } else {
      assert !Matches(w, t[0]);
      assert forall i :: 0 <= i < |t[1..]| ==> t[1..][i] == t[i + 1];
      NoMatchNoChange(t[1..], w, c);
    }
  }

  lemma {:induction false} LiveRows(t: Table, row: Row)
    ensures row in Live(t) <==> row in t && row.deletedAt.None?
  {
    if t == [] {
    } else {
      LiveRows(t[1..], row);
    }
  }

  // ---------------------------------------------------------------------------
  // Simulation
  // ---------------------------------------------------------------------------

  predicate Distinct(t: Table) {
    forall i, j :: 0 <= i < j < |t| ==> t[i].id != t[j].id
  }

  /** A where that names one row, as update and delete demand. */
  predicate Unique(w: Where) {
    IdField in w.fields && w.fields[IdField].Equals? && w.fields[IdField].value.Some?
  }

  predicate WellTyped(op: Op) {
    (op.Update? || op.Delete? ==> Unique(op.where))
  }

  predicate IdInTrash(t: Table, id: Id) {
    exists i :: 0 <= i < |t| && t[i].id == id && t[i].deletedAt.Some?
  }

  /** The operation can tell that there is a trash: what a caller can see before the call. */
  predicate SeesTrash(t: Table, op: Op) {
    match op
    case Read(kind, w) => !Filtered(kind, w) && if FindsOne(kind) then FirstInTrash(t, w) else TrashMatches(t, w)
    case Create(id, _) => IdInTrash(t, id)
    case ForceDelete(id) => IdInTrash(t, id)
    case _ => TrashMatches(t, op.where)
  }

  /** It would take a row out of the trash, or is refused because of one there. */
  predicate TouchesLiveThroughTrash(t: Table, op: Op) {
    match op
    case Create(id, _) => IdInTrash(t, id)
    case Update(w, c) => c.deletion.Restore? && TrashMatches(t, w)
    case UpdateMany(w, c) => c.deletion.Restore? && TrashMatches(t, w)
    case _ => false
  }

  lemma UniqueMatch(w: Where, row: Row)
    requires Unique(w) && Matches(w, row)
    ensures row.id == w.fields[IdField].value.value
  {
    assert EvalFields(w.fields, row).Yes?;
    assert EvalCond(w.fields[IdField], Cell(row, IdField)).Yes?;
  }

  lemma ByIdMatches(id: Id, row: Row)
    ensures Matches(ById(id), row) <==> row.id == id
  {
    var w := ById(id);
    assert EvalCond(w.fields[IdField], Cell(row, IdField)) == Decide(row.id == id);
    assert EvalFields(w.fields, row) == Decide(row.id == id) by {
      assert IdField in w.fields && forall f :: f in w.fields ==> f == IdField;
    }
    assert EvalAll(w.all, row) == Yes && EvalNone(w.none, row) == Yes;
  }

  lemma ByIdTrash(t: Table, id: Id)
    ensures TrashMatches(t, ById(id)) <==> IdInTrash(t, id)
  {
    forall row ensures Matches(ById(id), row) <==> row.id == id { ByIdMatches(id, row); }
  }

  /** With unique ids, a row found in the trash by a unique where is the only one found. */
  lemma TrashOrLive(t: Table, w: Where)
    requires Distinct(t) && Unique(w)
    ensures AnyMatch(t, w) <==> AnyMatch(Live(t), w) || TrashMatches(t, w)
    ensures !(AnyMatch(Live(t), w) && TrashMatches(t, w))
  {
    forall i | 0 <= i < |t| ensures t[i] in Live(t) <==> t[i].deletedAt.None? { LiveRows(t, t[i]); }
    forall i | 0 <= i < |Live(t)| ensures Live(t)[i] in t && Live(t)[i].deletedAt.None? { LiveRows(t, Live(t)[i]); }
    if AnyMatch(Live(t), w) {
      var i :| 0 <= i < |Live(t)| && Matches(w, Live(t)[i]);
      var k :| 0 <= k < |t| && t[k] == Live(t)[i];
      UniqueMatch(w, t[k]);
      if TrashMatches(t, w) {
        var j :| 0 <= j < |t| && t[j].deletedAt.Some? && Matches(w, t[j]);
        UniqueMatch(w, t[j]);
        assert false;
      }
    }
    if AnyMatch(t, w) && !TrashMatches(t, w) {
      var i :| 0 <= i < |t| && Matches(w, t[i]);
      var k :| 0 <= k < |Live(t)| && Live(t)[k] == t[i];
    }
  }

  lemma CreateIds(t: Table, id: Id)
    requires Distinct(t)
    ensures HasId(Live(t), id) <==> HasId(t, id) && !IdInTrash(t, id)
  {
    if HasId(Live(t), id) {
      var i :| 0 <= i < |Live(t)| && Live(t)[i].id == id;
      LiveRows(t, Live(t)[i]);
      var k :| 0 <= k < |t| && t[k] == Live(t)[i];
    }
    if HasId(t, id) && !IdInTrash(t, id) {
      var i :| 0 <= i < |t| && t[i].id == id;
      LiveRows(t, t[i]);
      var k :| 0 <= k < |Live(t)| && Live(t)[k] == t[i];
    }
  }

  lemma CreateSimulates(t: Table, id: Id, columns: map<nat, Value>)
    requires Distinct(t)
    ensures Live(Soft(t, Create(id, columns)).0) == Hard(Live(t), Create(id, columns)).0 <==> !IdInTrash(t, id)
    ensures Soft(t, Create(id, columns)).1 == Hard(Live(t), Create(id, columns)).1 <==> !IdInTrash(t, id)
  {
    CreateIds(t, id);
    var row := Row(id, None, columns);
    LiveAppends(t, row);
    assert Live([row]) == [row];
    assert Live(t) + [row] != Live(t);
  }

  lemma UpdateSimulates(t: Table, w: Where, c: Change)
    requires Distinct(t) && Unique(w)
    ensures Live(Soft(t, Update(w, c)).0) == Hard(Live(t), Update(w, c)).0 <==>
      !(c.deletion.Restore? && TrashMatches(t, w))
    ensures Soft(t, Update(w, c)).1 == Hard(Live(t), Update(w, c)).1 <==> !TrashMatches(t, w)
  {
    TrashOrLive(t, w);
    if !AnyMatch(t, w) {
      NoMatchNoChange(t, w, c);
    }
    if !AnyMatch(Live(t), w) {
      NoMatchNoChange(Live(t), w, c);
    }
    if c.deletion.Stamp? {
      StampIsRemove(t, w, c);
    } else {
      KeepRewritesLive(t, w, c);
    }
  }

  lemma UpdateManySimulates(t: Table, w: Where, c: Change)
    ensures Live(Soft(t, UpdateMany(w, c)).0) == Hard(Live(t), UpdateMany(w, c)).0 <==>
      !(c.deletion.Restore? && TrashMatches(t, w))
    ensures Soft(t, UpdateMany(w, c)).1 == Hard(Live(t), UpdateMany(w, c)).1 <==> !TrashMatches(t, w)
  {
    SelectSplits(t, w);
    if c.deletion.Stamp? {
      StampIsRemove(t, w, c);
    } else {
      KeepRewritesLive(t, w, c);
    }
  }

  /**
   * Deleting through the extension and then looking at the live rows is looking at the live
   * rows and really deleting. A caller can tell only by the answer, and only when the row is
   * in the trash already: delete then succeeds and stamps it again, deleteMany counts it.
   */
  lemma DeleteSimulates(t: Table, w: Where, now: Time)
    ensures Live(Soft(t, DeleteMany(w, now)).0) == Hard(Live(t), DeleteMany(w, now)).0
    ensures Soft(t, DeleteMany(w, now)).1 == Hard(Live(t), DeleteMany(w, now)).1 <==> !TrashMatches(t, w)
    ensures Distinct(t) && Unique(w) ==> Live(Soft(t, Delete(w, now)).0) == Hard(Live(t), Delete(w, now)).0
    ensures Distinct(t) && Unique(w) ==>
      (Soft(t, Delete(w, now)).1 == Hard(Live(t), Delete(w, now)).1 <==> !TrashMatches(t, w))
  {
    var c := Change(map[], Stamp(now));
    UpdateManySimulates(t, w, c);
    if Distinct(t) && Unique(w) {
      UpdateSimulates(t, w, c);
    }
  }

  /** Rows in the trash may happen to leave an aggregate or a grouping as it is. */
  predicate Summary(op: Op) {
    op.Read? && (op.kind.Aggregate? || op.kind.GroupBy?)
  }

  lemma ReadSimulates(t: Table, kind: ReadKind, w: Where)
    ensures
      var soft, hard := Soft(t, Read(kind, w)).1, Hard(Live(t), Read(kind, w)).1;
      && (!SeesTrash(t, Read(kind, w)) ==> soft == hard)
      && (soft == hard && !Summary(Read(kind, w)) ==> !SeesTrash(t, Read(kind, w)))
  {
    if Filtered(kind, w) {
      FilteredReadIsLiveRead(t, w);
    } else if FindsOne(kind) {
      FirstIsLive(t, w);
    } else {
      SelectSplits(t, w);
    }
  }

  /**
   * One operation: exactly when the live rows, and exactly when the answer, are those of a
   * real delete; for aggregates and groupings the trash unseen is enough.
   */
  lemma StepSimulates(t: Table, op: Op)
    requires Distinct(t) && WellTyped(op)
    ensures Live(Soft(t, op).0) == Hard(Live(t), op).0 <==> !TouchesLiveThroughTrash(t, op)
    ensures !SeesTrash(t, op) ==> Soft(t, op).1 == Hard(Live(t), op).1
    ensures Soft(t, op).1 == Hard(Live(t), op).1 && !Summary(op) ==> !SeesTrash(t, op)
  {
    match op
    case Read(kind, w) => ReadSimulates(t, kind, w);
    case Create(id, columns) => CreateSimulates(t, id, columns);
    case Update(w, c) => UpdateSimulates(t, w, c);
    case UpdateMany(w, c) => UpdateManySimulates(t, w, c);
    case Delete(w, now) => DeleteSimulates(t, w, now);
    case DeleteMany(w, now) => DeleteSimulates(t, w, now);
    case ForceDelete(id) =>
      RemoveCommutes(t, ById(id));
      SelectSplits(t, ById(id));
      ByIdTrash(t, id);
  }

  // ---------------------------------------------------------------------------
  // Whole runs
  // ---------------------------------------------------------------------------

  function RunSoft(t: Table, ops: seq<Op>): (Table, seq<Outcome>)
    decreases |ops|
  {
    if ops == [] then (t, [])
    else
      var (t1, o) := Soft(t, ops[0]);
      var (t2, os) := RunSoft(t1, ops[1..]);
      (t2, [o] + os)
  }

  function RunHard(t: Table, ops: seq<Op>): (Table, seq<Outcome>)
    decreases |ops|
  {
    if ops == [] then (t, [])
    else
      var (t1, o) := Hard(t, ops[0]);
      var (t2, os) := RunHard(t1, ops[1..]);
      (t2, [o] + os)
  }

  /** No operation of the run, at its turn, reaches the live rows through the trash. */
  predicate KeepsTrash(t: Table, ops: seq<Op>)
    decreases |ops|
  {
    ops == [] || (!TouchesLiveThroughTrash(t, ops[0]) && KeepsTrash(Soft(t, ops[0]).0, ops[1..]))
  }

  predicate EverSeesTrash(t: Table, ops: seq<Op>)
    decreases |ops|
  {
    ops != [] && (SeesTrash(t, ops[0]) || EverSeesTrash(Soft(t, ops[0]).0, ops[1..]))
  }

  lemma {:induction false} RewriteIds(t: Table, w: Where, c: Change)
    ensures |Rewrite(t, w, c)| == |t|
    ensures forall i :: 0 <= i < |t| ==> Rewrite(t, w, c)[i] == if Matches(w, t[i]) then Touch(t[i], c) else t[i]
  {
    if t == [] {
    } else {
      RewriteIds(t[1..], w, c);
    }
  }

  lemma {:induction false} RemoveRows(t: Table, w: Where, row: Row)
    ensures row in Remove(t, w) <==> row in t && !Matches(w, row)
  {
    if t == [] {
    } else {
      RemoveRows(t[1..], w, row);
    }
  }

  lemma {:induction false} RemoveDistinct(t: Table, w: Where)
    requires Distinct(t)
    ensures Distinct(Remove(t, w))
  {
    if t == [] {
    } else {
      assert Distinct(t[1..]);
      RemoveDistinct(t[1..], w);
      forall i | 0 <= i < |Remove(t[1..], w)| ensures Remove(t[1..], w)[i].id != t[0].id {
        RemoveRows(t[1..], w, Remove(t[1..], w)[i]);
      }
    }
  }

  lemma SoftDistinct(t: Table, op: Op)
    requires Distinct(t)
    ensures Distinct(Soft(t, op).0)
  {
    match op
    case Read(_, _) =>
    case Create(_, _) =>
    case Update(w, c) => RewriteIds(t, w, c);
    case UpdateMany(w, c) => RewriteIds(t, w, c);
    case Delete(w, now) => RewriteIds(t, w, Change(map[], Stamp(now)));
    case DeleteMany(w, now) => RewriteIds(t, w, Change(map[], Stamp(now)));
    case ForceDelete(id) => RemoveDistinct(t, ById(id));
  }

  /**
   * A whole run against the extension leaves the live rows a hard-deleting table would have,
   * and gives all its answers, exactly until an operation sees the trash (summaries aside).
   */
  lemma {:induction false} RunSimulates(t: Table, ops: seq<Op>)
    requires Distinct(t) && KeepsTrash(t, ops)
    requires forall i :: 0 <= i < |ops| ==> WellTyped(ops[i])
    ensures Live(RunSoft(t, ops).0) == RunHard(Live(t), ops).0
    ensures !EverSeesTrash(t, ops) ==> RunSoft(t, ops).1 == RunHard(Live(t), ops).1
    ensures
      RunSoft(t, ops).1 == RunHard(Live(t), ops).1 && (forall i :: 0 <= i < |ops| ==> !Summary(ops[i])) ==>
        !EverSeesTrash(t, ops)
    decreases |ops|
  {
    if ops == [] {
    } else {
      assert WellTyped(ops[0]);
      assert (forall i :: 0 <= i < |ops| ==> !Summary(ops[i])) ==> !Summary(ops[0]);
      StepSimulates(t, ops[0]);
      SoftDistinct(t, ops[0]);
      var t1 := Soft(t, ops[0]).0;
      RunSimulates(t1, ops[1..]);
      var soft, hard := RunSoft(t, ops).1, RunHard(Live(t), ops).1;
      assert soft[1..] == RunSoft(t1, ops[1..]).1 && hard[1..] == RunHard(Live(t1), ops[1..]).1;
      assert soft == [soft[0]] + soft[1..] && hard == [hard[0]] + hard[1..];
    }
  }

  /** Side by side, after every operation: the live rows are the rows of the table that really deletes. */
  predicate LiveAgrees(soft: Table, hard: Table, ops: seq<Op>)
    decreases |ops|
  {
    Live(soft) == hard && (ops == [] || LiveAgrees(Soft(soft, ops[0]).0, Hard(hard, ops[0]).0, ops[1..]))
  }

  /** They agree throughout exactly when no operation takes a row out of the trash or runs into an id there. */
  lemma {:induction false} LiveAgreesIff(t: Table, ops: seq<Op>)
    requires Distinct(t) && forall i :: 0 <= i < |ops| ==> WellTyped(ops[i])
    ensures LiveAgrees(t, Live(t), ops) <==> KeepsTrash(t, ops)
    decreases |ops|
  {
    if ops != [] {
      assert WellTyped(ops[0]);
      StepSimulates(t, ops[0]);
      SoftDistinct(t, ops[0]);
      LiveAgreesIff(Soft(t, ops[0]).0, ops[1..]);
    }
  }

  lemma SoftKeepsIds(t: Table, op: Op, id: Id)
    ensures HasId(Soft(t, op).0, id) <==> (HasId(t, id) && op != ForceDelete(id)) || (op.Create? && op.id == id)
  {
    match op
    case Read(_, _) =>
    case Create(created, columns) =>
      var t' := Soft(t, op).0;
      assert HasId(t, id) ==> HasId(t', id) by {
        if HasId(t, id) {
          var i :| 0 <= i < |t| && t[i].id == id;
          assert t'[i].id == id;
        }
      }
      if !HasId(t, created) {
        assert t'[|t|].id == created;
      }
    case Update(w, c) => RewriteKeepsIds(t, w, c, id);
    case UpdateMany(w, c) => RewriteKeepsIds(t, w, c, id);
    case Delete(w, now) => RewriteKeepsIds(t, w, Change(map[], Stamp(now)), id);
    case DeleteMany(w, now) => RewriteKeepsIds(t, w, Change(map[], Stamp(now)), id);
    case ForceDelete(gone) =>
      forall row ensures row in Remove(t, ById(gone)) <==> row in t && row.id != gone {
        RemoveRows(t, ById(gone), row);
        ByIdMatches(gone, row);
      }
      var t' := Remove(t, ById(gone));
      if HasId(t', id) {
        var i :| 0 <= i < |t'| && t'[i].id == id;
        assert t'[i] in t' && t'[i] in t;
      }
      if HasId(t, id) && id != gone {
        var i :| 0 <= i < |t| && t[i].id == id;
        assert t[i] in t && t[i] in t';
      }
  }

  lemma RewriteKeepsIds(t: Table, w: Where, c: Change, id: Id)
    ensures HasId(Rewrite(t, w, c), id) <==> HasId(t, id)
  {
    RewriteIds(t, w, c);
    var t' := Rewrite(t, w, c);
    forall i | 0 <= i < |t| ensures t'[i].id == t[i].id {
    }
    if HasId(t, id) {
      var i :| 0 <= i < |t| && t[i].id == id;
      assert t'[i].id == id;
    }
    if HasId(t', id) {
      var i :| 0 <= i < |t'| && t'[i].id == id;
      assert t[i].id == id;
    }
  }

  /** Only forceDelete takes a row out of the table: every other one stays through any run. */
  lemma {:induction false} OnlyForceDeleteRemoves(t: Table, ops: seq<Op>, id: Id)
    requires HasId(t, id) && ForceDelete(id) !in ops
    ensures HasId(RunSoft(t, ops).0, id)
    decreases |ops|
  {
    if ops == [] {
    } else {
      SoftKeepsIds(t, ops[0], id);
      OnlyForceDeleteRemoves(Soft(t, ops[0]).0, ops[1..], id);
    }
  }

  /** A row changed: its id never, the columns that are given, and its mark as the change says. */
  ghost predicate Becomes(row: Row, c: Change, after: Row) {
    && after.id == row.id
    && after.deletedAt == (match c.deletion case Keep => row.deletedAt case Stamp(at) => Some(at) case Restore => None)
    && forall name :: (name in after.columns <==> name in row.columns || name in c.columns) &&
         (name in after.columns ==>
            after.columns[name] == if name in c.columns then c.columns[name] else row.columns[name])
  }

  /** Each row that matches is changed in place, in the trash or not, and no other row is. */
  ghost predicate ChangesMatches(t: Table, t': Table, w: Where, c: Change) {
    && |t'| == |t|
    && forall i :: 0 <= i < |t| ==> if Matches(w, t[i]) then Becomes(t[i], c, t'[i]) else t'[i] == t[i]
  }

  /**
   * The writes, row by row. A delete only stamps; what leaves the table is what forceDelete
   * names; an update or a delete of one row fails, and changes nothing, when none matches.
   */
  lemma WritesAct(t: Table, op: Op)
    requires !op.Read?
    ensures
      var (t', answer) := Soft(t, op);
      match op
      case Create(id, columns) =>
        if exists row :: row in t && row.id == id then t' == t && answer == Duplicate
        else t' == t + [Row(id, None, columns)] && answer == Done
      case Update(w, c) =>
        ChangesMatches(t, t', w, c) && answer == if exists row :: row in t && Matches(w, row) then Done else NotFound
      case UpdateMany(w, c) =>
        ChangesMatches(t, t', w, c) && answer == Affected(|Hits(t, w)|)
      case Delete(w, now) =>
        && ChangesMatches(t, t', w, Change(map[], Stamp(now)))
        && answer == if exists row :: row in t && Matches(w, row) then Done else NotFound
      case DeleteMany(w, now) =>
        && ChangesMatches(t, t', w, Change(map[], Stamp(now)))
        && answer == Affected(|Hits(t, w)|)
      case ForceDelete(gone) =>
        && (forall row :: row in t' <==> row in t && row.id != gone)
        && answer == Affected(|set i | 0 <= i < |t| && t[i].id == gone|)
      case Read(_, _) => true
  {
    match op
    case Create(_, _) =>
    case Update(w, c) => RewriteActs(t, w, c);
    case UpdateMany(w, c) => RewriteActs(t, w, c); SelectedSize(t, w);
    case Delete(w, now) => RewriteActs(t, w, Change(map[], Stamp(now)));
    case DeleteMany(w, now) => RewriteActs(t, w, Change(map[], Stamp(now))); SelectedSize(t, w);
    case ForceDelete(gone) =>
      forall row ensures (row in Remove(t, ById(gone)) <==> row in t && row.id != gone)
        ensures Matches(ById(gone), row) <==> row.id == gone
      {
        RemoveRows(t, ById(gone), row);
        ByIdMatches(gone, row);
      }
      SelectedSize(t, ById(gone));
      assert Hits(t, ById(gone)) == set i | 0 <= i < |t| && t[i].id == gone;
  }

  lemma RewriteActs(t: Table, w: Where, c: Change)
    ensures ChangesMatches(t, Rewrite(t, w, c), w, c)
    ensures AnyMatch(t, w) <==> exists row :: row in t && Matches(w, row)
    ensures !AnyMatch(t, w) ==> ChangesMatches(t, t, w, c)
  {
    RewriteIds(t, w, c);
    forall i | 0 <= i < |t| && Matches(w, t[i]) ensures Becomes(t[i], c, Rewrite(t, w, c)[i]) {
      TouchMeans(t[i], c);
    }
    MatchIsARow(t, w);
  }

  lemma TouchMeans(row: Row, c: Change)
    ensures Becomes(row, c, Touch(row, c))
  {
  }

  lemma MatchIsARow(t: Table, w: Where)
    ensures AnyMatch(t, w) <==> exists row :: row in t && Matches(w, row)
  {
    if row :| row in t && Matches(w, row) {
      var i :| 0 <= i < |t| && t[i] == row;
    }
  }

  /** A change by id reaches the row with that id and no other. */
  lemma RewriteOne(t: Table, k: nat, c: Change)
    requires Distinct(t) && k < |t|
    ensures AnyMatch(t, ById(t[k].id)) && Rewrite(t, ById(t[k].id), c) == t[k := Touch(t[k], c)]
  {
    var w := ById(t[k].id);
    RewriteIds(t, w, c);
    forall i | 0 <= i < |t| ensures Matches(w, t[i]) <==> i == k {
      ByIdMatches(t[k].id, t[i]);
    }
  }

  lemma DeletedIsNotLive(t: Table, k: nat, now: Time)
    requires Distinct(t) && k < |t|
    ensures
      var trashed := Soft(t, Delete(ById(t[k].id), now)).0;
      trashed == t[k := Row(t[k].id, Some(now), t[k].columns)] && Distinct(trashed) && !HasId(Live(trashed), t[k].id)
  {
    var c := Change(map[], Stamp(now));
    RewriteOne(t, k, c);
    assert t[k].columns + map[] == t[k].columns;
    var trashed := t[k := Row(t[k].id, Some(now), t[k].columns)];
    assert trashed == Soft(t, Delete(ById(t[k].id), now)).0;
    assert Distinct(trashed) && trashed[k].id == t[k].id && trashed[k].deletedAt.Some?;
    CreateIds(trashed, t[k].id);
  }

  /**
   * A delete loses nothing: the row leaves the live rows, and restoring it brings the table
   * back to what it was.
   */
  lemma RestoreUndoesDelete(t: Table, k: nat, now: Time)
    requires Distinct(t) && k < |t| && t[k].deletedAt.None?
    ensures
      var trashed := Soft(t, Delete(ById(t[k].id), now)).0;
      !HasId(Live(trashed), t[k].id) && Soft(trashed, Update(ById(t[k].id), Change(map[], Restore))) == (t, Done)
  {
    DeletedIsNotLive(t, k, now);
    var trashed := t[k := Row(t[k].id, Some(now), t[k].columns)];
    RewriteOne(trashed, k, Change(map[], Restore));
    assert t[k].columns + map[] == t[k].columns;
    assert trashed[k := t[k]] == t;
  }

  // ---------------------------------------------------------------------------
  // The client
  // ---------------------------------------------------------------------------

  /** One model, through the extended client. A model without the column is left alone. */
  class Delegate {
    const tracked: bool
    var table: Table

    ghost predicate Valid()
      reads this
    {
      Distinct(table) && (!tracked ==> Live(table) == table)
    }

    constructor (tracked: bool)
      ensures Valid() && this.tracked == tracked && table == []
    {
      this.tracked := tracked;
      table := [];
    }

    method FindMany(w: Where) returns (rows: seq<Row>)
      requires Valid()
      ensures tracked && !ExplicitDeletedAt(w) ==> rows == Select(Live(table), w)
      ensures !tracked || ExplicitDeletedAt(w) ==> rows == Select(table, w)
    {
      var effective := w;
      if tracked && !ExplicitDeletedAt(w) {
        effective := WithSoftDeleteFilter(w);
        FilteredReadIsLiveRead(table, w);
      }
      rows := Select(table, effective);
    }

    method Create(id: Id, columns: map<nat, Value>) returns (o: Outcome)
      requires Valid()
      modifies this
      ensures Valid() && (table, o) == Soft(old(table), Op.Create(id, columns))
    {
      if exists i :: 0 <= i < |table| && table[i].id == id { return Duplicate; }
      LiveAppends(table, Row(id, None, columns));
      table := table + [Row(id, None, columns)];
      o := Done;
    }

    /** delete: where there is a trash, an update that stamps the row, in or out of it. */
    method Delete(w: Where, now: Time) returns (o: Outcome)
      requires Valid() && Unique(w)
      modifies this
      ensures Valid() && o == if AnyMatch(old(table), w) then Done else NotFound
      ensures tracked ==> table == Rewrite(old(table), w, Change(map[], Stamp(now))) && |table| == |old(table)|
      ensures !tracked ==> table == Remove(old(table), w)
      ensures Live(table) == Remove(Live(old(table)), w)
    {
      var found := AnyMatch(table, w);
      if tracked {
        SoftDistinct(table, Op.Delete(w, now));
        StampIsRemove(table, w, Change(map[], Stamp(now)));
        RewriteIds(table, w, Change(map[], Stamp(now)));
        if !found { NoMatchNoChange(table, w, Change(map[], Stamp(now))); }
        table := Rewrite(table, w, Change(map[], Stamp(now)));
      } else {
        RemoveDistinct(table, w);
        RemoveCommutes(table, w);
        table := Remove(table, w);
      }
      o := if found then Done else NotFound;
    }

    /** deleteMany: without a where, the whole model goes to the trash. */
    method DeleteMany(w: Option<Where>, now: Time) returns (count: nat)
      requires Valid()
      modifies this
      ensures Valid()
      ensures
        var filter := if w.Some? then w.value else Where(map[], [], Absent, []);
        && Live(table) == Remove(Live(old(table)), filter)
        && (tracked ==> table == Rewrite(old(table), filter, Change(map[], Stamp(now))))
        && count == |Select(old(table), filter)|
    {
      var filter := if w.Some? then w.value else Where(map[], [], Absent, []);
      count := |Select(table, filter)|;
      if tracked {
        SoftDistinct(table, Op.DeleteMany(filter, now));
        StampIsRemove(table, filter, Change(map[], Stamp(now)));
        table := Rewrite(table, filter, Change(map[], Stamp(now)));
      } else {
        RemoveDistinct(table, filter);
        RemoveCommutes(table, filter);
        table := Remove(table, filter);
      }
    }

    /** forceDelete: raw SQL by id, in or out of the trash. */
    method ForceDelete(id: Id) returns (count: nat)
      requires Valid()
      modifies this
      ensures Valid() && (table, Affected(count)) == Soft(old(table), Op.ForceDelete(id))
      ensures forall row :: row in table <==> row in old(table) && row.id != id
    {
      RemoveDistinct(table, ById(id));
      RemoveCommutes(table, ById(id));
      forall row ensures row in Remove(table, ById(id)) <==> row in table && row.id != id {
        RemoveRows(table, ById(id), row);
        ByIdMatches(id, row);
      }
      count := |Select(table, ById(id))|;
      table := Remove(table, ById(id));
    }
  }
}
