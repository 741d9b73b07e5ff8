/**
 * Quotes: the totals of a list of rows, computed by the server
 * (apps/accountant-api/src/preventivi/preventivi.service.ts) and mirrored by the client
 * (apps/accountant-web/src/lib/preventivi-totali.ts), and the totals stored with a quote
 * while its rows are replaced as a whole. Numbers are exact reals.
 */
module Preventivi {
  import opened Prelude

  datatype Voce = Voce(quantita: real, prezzoUnitario: real, scontoPct: real, ivaAliquota: real)

  datatype Totali = Totali(totaleImponibile: real, totaleIva: real, totale: real)

  // ---------------------------------------------------------------------------
  // Rounding
  // ---------------------------------------------------------------------------

  /** Math.round: to the nearest integer, halves upwards. */
  function MathRound(x: real): int {
    (x + 0.5).Floor
  }

  function Round2(x: real): real {
    MathRound(x * 100.0) as real / 100.0
  }

  predicate IsCents(x: real) {
    (x * 100.0).Floor as real == x * 100.0
  }

  lemma Round2Near(x: real)
    ensures IsCents(Round2(x)) && Round2(x) - 0.005 <= x < Round2(x) + 0.005
  {
    var n := MathRound(x * 100.0);
    assert n as real <= x * 100.0 + 0.5 < n as real + 1.0;
    assert Round2(x) * 100.0 == n as real;
  }

  lemma Round2OfCents(x: real)
    requires IsCents(x)
    ensures Round2(x) == x
  {
    var n := (x * 100.0).Floor;
    assert MathRound(x * 100.0) == n;
  }

  lemma CentsAdd(x: real, y: real)
    requires IsCents(x) && IsCents(y)
    ensures IsCents(x + y)
  {
    var n, m := (x * 100.0).Floor, (y * 100.0).Floor;
    assert (x + y) * 100.0 == (n + m) as real;
  }

  // ---------------------------------------------------------------------------
  // Totals
  // ---------------------------------------------------------------------------

  function Scontato(v: Voce): real {
    v.quantita * v.prezzoUnitario * (1.0 - v.scontoPct / 100.0)
  }

  function Riga(v: Voce): real {
    Round2(Scontato(v))
  }

  function Imposta(imponibile: real, aliquota: real): real {
    imponibile * (aliquota / 100.0)
  }

  function Iva(v: Voce): real {
    Round2(Imposta(Riga(v), v.ivaAliquota))
  }

  /** Discounted and taxed, without any rounding. */
  function Esatto(v: Voce): real {
    v.quantita * v.prezzoUnitario * (1.0 - v.scontoPct / 100.0) * (1.0 + v.ivaAliquota / 100.0)
  }

  function Sum(f: Voce -> real, voci: seq<Voce>): real {
    if voci == [] then 0.0 else Sum(f, voci[..|voci| - 1]) + f(voci[|voci| - 1])
  }

  /** What the totals mean: plain sums of the rounded rows, with no rounding of their own. */
  function TotaliDi(voci: seq<Voce>): Totali {
    var imponibile, iva := Sum(Riga, voci), Sum(Iva, voci);
    Totali(imponibile, iva, imponibile + iva)
  }

  lemma {:induction false} SumsAreCents(voci: seq<Voce>)
    ensures IsCents(Sum(Riga, voci)) && IsCents(Sum(Iva, voci))
  {
    if voci == [] {
    } else {
      var v := voci[|voci| - 1];
      SumsAreCents(voci[..|voci| - 1]);
      Round2Near(Scontato(v));
      Round2Near(Imposta(Riga(v), v.ivaAliquota));
      CentsAdd(Sum(Riga, voci[..|voci| - 1]), Riga(v));
      CentsAdd(Sum(Iva, voci[..|voci| - 1]), Iva(v));
    }
  }

  /** The rounding of the aggregates changes nothing. */
  lemma AggregatesAreRounded(voci: seq<Voce>)
    ensures
      var t := TotaliDi(voci);
      Round2(t.totaleImponibile) == t.totaleImponibile && Round2(t.totaleIva) == t.totaleIva &&
        Round2(t.totale) == t.totale
  {
    SumsAreCents(voci);
    CentsAdd(Sum(Riga, voci), Sum(Iva, voci));
    Round2OfCents(Sum(Riga, voci));
    Round2OfCents(Sum(Iva, voci));
    Round2OfCents(Sum(Riga, voci) + Sum(Iva, voci));
  }

  // ---------------------------------------------------------------------------
  // What the totals are, without their definition
  // ---------------------------------------------------------------------------

  function Abs(x: real): real {
    if x < 0.0 then -x else x
  }

  function Total(amounts: seq<real>): real {
    if amounts == [] then 0.0 else Total(amounts[..|amounts| - 1]) + amounts[|amounts| - 1]
  }

  /** The number of cents nearest to an amount, halves upwards. */
  predicate NearestCents(cents: real, amount: real) {
    IsCents(cents) && cents - 0.005 <= amount < cents + 0.005
  }

  function HalfCents(n: nat): real {
    0.005 * n as real
  }

  /** Amounts that are off by half a cent each are off by that many half cents together. */
  lemma {:induction false} HalfCentsAdd(a: seq<real>, b: seq<real>)
    requires |a| == |b| && forall i :: 0 <= i < |a| ==> -0.005 <= a[i] - b[i] <= 0.005
    ensures Abs(Total(a) - Total(b)) <= HalfCents(|a|)
  {
    if a != [] {
      HalfCentsAdd(a[..|a| - 1], b[..|b| - 1]);
    }
  }

  lemma {:induction false} SumIsTotal(f: Voce -> real, voci: seq<Voce>, amounts: seq<real>)
    requires |amounts| == |voci| && forall i :: 0 <= i < |voci| ==> amounts[i] == f(voci[i])
    ensures Sum(f, voci) == Total(amounts)
  {
    if voci != [] {
      SumIsTotal(f, voci[..|voci| - 1], amounts[..|amounts| - 1]);
    }
  }

  lemma VoceIsNearest(v: Voce)
    ensures NearestCents(Riga(v), v.quantita * v.prezzoUnitario * (1.0 - v.scontoPct / 100.0))
    ensures NearestCents(Iva(v), Riga(v) * (v.ivaAliquota / 100.0))
  {
    Round2Near(Scontato(v));
    Round2Near(Imposta(Riga(v), v.ivaAliquota));
  }

  /** The amounts of the rows, exact: discounted, and the tax on the rounded row. */
  function Netti(voci: seq<Voce>): seq<real> {
    seq(|voci|, i requires 0 <= i < |voci| =>
      voci[i].quantita * voci[i].prezzoUnitario * (1.0 - voci[i].scontoPct / 100.0))
  }

  function Imposte(voci: seq<Voce>, perVoce: seq<real>): seq<real>
    requires |perVoce| == |voci|
  {
    seq(|voci|, i requires 0 <= i < |voci| => perVoce[i] * (voci[i].ivaAliquota / 100.0))
  }

  /**
   * The totals by their parts. Each row's is its discounted amount in cents; the taxable total
   * is their plain sum, and off by half a cent a row at most; so is the tax, from the exact
   * tax on those row totals; and the total is the two together.
   */
  predicate TotalsOf(voci: seq<Voce>, perVoce: seq<real>, t: Totali)
    requires |perVoce| == |voci|
  {
    && (forall i :: 0 <= i < |voci| ==> NearestCents(perVoce[i], Netti(voci)[i]))
    && t.totaleImponibile == Total(perVoce) && Abs(t.totaleImponibile - Total(Netti(voci))) <= HalfCents(|voci|)
    && IsCents(t.totaleIva) && Abs(t.totaleIva - Total(Imposte(voci, perVoce))) <= HalfCents(|voci|)
    && t.totale == t.totaleImponibile + t.totaleIva
  }

  lemma NearTotal(sum: real, a: seq<real>, b: seq<real>, n: nat)
    requires sum == Total(a) && |a| == |b| == n
    requires forall i :: 0 <= i < n ==> -0.005 <= a[i] - b[i] <= 0.005
    ensures Abs(sum - Total(b)) <= HalfCents(n)
  {
    HalfCentsAdd(a, b);
  }

  function Ive(voci: seq<Voce>): seq<real> {
    seq(|voci|, i requires 0 <= i < |voci| => Iva(voci[i]))
  }

  lemma RowIsNear(voci: seq<Voce>, perVoce: seq<real>, i: nat)
    requires |perVoce| == |voci| && i < |voci| && perVoce[i] == Riga(voci[i])
    ensures NearestCents(perVoce[i], Netti(voci)[i]) && NearestCents(Ive(voci)[i], Imposte(voci, perVoce)[i])
  {
    VoceIsNearest(voci[i]);
  }

  lemma TotaliMean(voci: seq<Voce>, perVoce: seq<real>)
    requires |perVoce| == |voci| && forall i :: 0 <= i < |voci| ==> perVoce[i] == Riga(voci[i])
    ensures TotalsOf(voci, perVoce, TotaliDi(voci))
  {
    var netti, imposte, ive := Netti(voci), Imposte(voci, perVoce), Ive(voci);
    forall i | 0 <= i < |voci| ensures NearestCents(perVoce[i], netti[i]) && NearestCents(ive[i], imposte[i]) {
      RowIsNear(voci, perVoce, i);
    }
    assert Sum(Riga, voci) == Total(perVoce) by { SumIsTotal(Riga, voci, perVoce); }
    assert Sum(Iva, voci) == Total(ive) by { SumIsTotal(Iva, voci, ive); }
    SumsAreCents(voci);
    NearTotal(Sum(Riga, voci), perVoce, netti, |voci|);
    NearTotal(Sum(Iva, voci), ive, imposte, |voci|);
  }

  method ComputeVoce(v: Voce) returns (totaleRiga: real, imponibile: real, iva: real)
    ensures totaleRiga == imponibile == Riga(v) && iva == Iva(v)
    ensures NearestCents(totaleRiga, v.quantita * v.prezzoUnitario * (1.0 - v.scontoPct / 100.0))
    ensures NearestCents(iva, totaleRiga * (v.ivaAliquota / 100.0))
  {
    VoceIsNearest(v);
    var lordo := v.quantita * v.prezzoUnitario;
    var scontato := lordo * (1.0 - v.scontoPct / 100.0);
    assert scontato == Scontato(v);
    totaleRiga := MathRound(scontato * 100.0) as real / 100.0;
    assert totaleRiga == Riga(v);
    var imposta := totaleRiga * (v.ivaAliquota / 100.0);
    assert imposta == Imposta(Riga(v), v.ivaAliquota);
    iva := MathRound(imposta * 100.0) as real / 100.0;
    imponibile := totaleRiga;
  }

  /** The loop over the rows. */
  method AddUp(voci: seq<Voce>) returns (perVoce: seq<real>, totaleImponibile: real, totaleIva: real)
    ensures |perVoce| == |voci| && forall i :: 0 <= i < |voci| ==> perVoce[i] == Riga(voci[i])
    ensures totaleImponibile == Sum(Riga, voci) && totaleIva == Sum(Iva, voci)
  {
    perVoce := [];
    totaleImponibile, totaleIva := 0.0, 0.0;
    for i := 0 to |voci|
      invariant |perVoce| == i && forall j :: 0 <= j < i ==> perVoce[j] == Riga(voci[j])
      invariant totaleImponibile == Sum(Riga, voci[..i]) && totaleIva == Sum(Iva, voci[..i])
    {
      var totaleRiga, imponibile, iva := ComputeVoce(voci[i]);
      perVoce := perVoce + [totaleRiga];
      totaleImponibile := totaleImponibile + imponibile;
      totaleIva := totaleIva + iva;
      assert voci[..i + 1][..i] == voci[..i];
    }
    assert voci[..|voci|] == voci;
  }

  /** The server: the totals, and the total of each row. */
  method ComputeTotali(voci: seq<Voce>) returns (perVoce: seq<real>, t: Totali)
    ensures t == TotaliDi(voci)
    ensures |perVoce| == |voci| && forall i :: 0 <= i < |voci| ==> perVoce[i] == Riga(voci[i])
    ensures TotalsOf(voci, perVoce, t)
  {
    var totaleImponibile: real, totaleIva: real;
    perVoce, totaleImponibile, totaleIva := AddUp(voci);
    AggregatesAreRounded(voci);
    totaleImponibile := MathRound(totaleImponibile * 100.0) as real / 100.0;
    totaleIva := MathRound(totaleIva * 100.0) as real / 100.0;
    var totale := MathRound((totaleImponibile + totaleIva) * 100.0) as real / 100.0;
    t := Totali(totaleImponibile, totaleIva, totale);
    TotaliMean(voci, perVoce);
  }

  /** The client mirror. */
  method MirrorTotali(voci: seq<Voce>) returns (t: Totali)
    ensures t == TotaliDi(voci)
    ensures exists perVoce :: |perVoce| == |voci| && TotalsOf(voci, perVoce, t)
  {
    var totaleImponibile, totaleIva := 0.0, 0.0;
    for i := 0 to |voci|
      invariant totaleImponibile == Sum(Riga, voci[..i]) && totaleIva == Sum(Iva, voci[..i])
    {
      var v := voci[i];
      var lordo := v.quantita * v.prezzoUnitario;
      var scontato := lordo * (1.0 - v.scontoPct / 100.0);
      assert scontato == Scontato(v);
      var totaleRiga := Round2(scontato);
      totaleImponibile := totaleImponibile + totaleRiga;
      totaleIva := totaleIva + Round2(Imposta(totaleRiga, v.ivaAliquota));
      assert voci[..i + 1][..i] == voci[..i];
    }
    assert voci[..|voci|] == voci;
    AggregatesAreRounded(voci);
    totaleImponibile := Round2(totaleImponibile);
    totaleIva := Round2(totaleIva);
    t := Totali(totaleImponibile, totaleIva, Round2(totaleImponibile + totaleIva));
    TotaliMean(voci, seq(|voci|, i requires 0 <= i < |voci| => Riga(voci[i])));
  }

  // ---------------------------------------------------------------------------
  // The error of rounding row by row
  // ---------------------------------------------------------------------------

  /** What a row may be off by: (1 + rate / 200) cents. */
  function Tolleranza(v: Voce): real {
    (1.0 + v.ivaAliquota / 200.0) / 100.0
  }

  lemma ImpostaOfHalfCent(aliquota: real)
    ensures Imposta(0.005, aliquota) == aliquota / 20000.0
  {
  }

  lemma ImpostaGrows(s: real, t: real, aliquota: real)
    requires s <= t && 0.0 <= aliquota
    ensures Imposta(s, aliquota) <= Imposta(t, aliquota)
  {
    var gap, k := t - s, aliquota / 100.0;
    assert 0.0 <= gap * k;
  }

  lemma ImpostaAdds(s: real, t: real, aliquota: real)
    ensures Imposta(s + t, aliquota) == Imposta(s, aliquota) + Imposta(t, aliquota)
  {
  }

  /** Half a cent of taxable amount makes at most half a cent's tax. */
  lemma ImpostaGap(s: real, t: real, aliquota: real)
    requires s <= t + 0.005 && 0.0 <= aliquota
    ensures Imposta(s, aliquota) <= Imposta(t, aliquota) + Imposta(0.005, aliquota)
  {
    ImpostaGrows(s, t + 0.005, aliquota);
    ImpostaAdds(t, 0.005, aliquota);
  }

  /** The two errors of a row, with its taxes named. */
  lemma ErrorsAdd(s: real, t: real, i: real, taxS: real, taxT: real, bound: real)
    requires -0.005 <= s - t <= 0.005 && -0.005 <= taxT - i <= 0.005 && taxS <= taxT + bound && taxT <= taxS + bound
    ensures Abs(t + i - (s + taxS)) <= 0.01 + bound
  {
  }

  lemma EsattoIs(v: Voce)
    ensures Esatto(v) == Scontato(v) + Imposta(Scontato(v), v.ivaAliquota)
  {
    var s, k := Scontato(v), v.ivaAliquota / 100.0;
    assert s * (1.0 + k) == s + s * k;
  }

  lemma VoceBound(v: Voce)
    requires 0.0 <= v.ivaAliquota
    ensures Abs(Riga(v) + Iva(v) - Esatto(v)) <= Tolleranza(v)
  {
    var s, t, r := Scontato(v), Riga(v), v.ivaAliquota;
    EsattoIs(v);
    Round2Near(s);
    Round2Near(Imposta(t, r));
    ImpostaGap(s, t, r);
    ImpostaGap(t, s, r);
    ImpostaOfHalfCent(r);
    ErrorsAdd(s, t, Iva(v), Imposta(s, r), Imposta(t, r), Imposta(0.005, r));
  }

  /** The stored total is within (1 + rate / 200) cents a row of the unrounded one. */
  lemma {:induction false} RoundingBound(voci: seq<Voce>)
    requires forall i :: 0 <= i < |voci| ==> 0.0 <= voci[i].ivaAliquota
    ensures Abs(TotaliDi(voci).totale - Sum(Esatto, voci)) <= Sum(Tolleranza, voci)
  {
    if voci == [] {
    } else {
      RoundingBound(voci[..|voci| - 1]);
      VoceBound(voci[|voci| - 1]);
    }
  }

  /** No smaller bound holds: half a unit at one cent and 50% of tax, any number of times, reaches it. */
  lemma {:induction false} BoundIsReached(n: nat)
    ensures
      var voci := seq(n, _ => Voce(0.5, 0.01, 0.0, 50.0));
      TotaliDi(voci).totale - Sum(Esatto, voci) == Sum(Tolleranza, voci)
  {
    if n > 0 {
      var voci := seq(n, _ => Voce(0.5, 0.01, 0.0, 50.0));
      BoundIsReached(n - 1);
      assert voci[..n - 1] == seq(n - 1, _ => Voce(0.5, 0.01, 0.0, 50.0));
      var v := voci[n - 1];
      assert Scontato(v) == 0.005;
      assert MathRound(0.5) == 1;
      assert Riga(v) == 0.01;
      assert Riga(v) * (v.ivaAliquota / 100.0) == 0.005;
      assert Iva(v) == 0.01;
      assert Esatto(v) == 0.0075;
      assert Tolleranza(v) == 0.0125;
    }
  }

  // ---------------------------------------------------------------------------
  // Order
  // ---------------------------------------------------------------------------

  lemma {:induction false} SumWithout(f: Voce -> real, voci: seq<Voce>, i: nat)
    requires i < |voci|
    ensures Sum(f, voci) == Sum(f, voci[..i] + voci[i + 1..]) + f(voci[i])
  {
    var n := |voci| - 1;
    if i == n {
      assert voci[..i] + voci[i + 1..] == voci[..n];
    } else {
      SumWithout(f, voci[..n], i);
      var rest := voci[..i] + voci[i + 1..];
      assert voci[..n][..i] + voci[..n][i + 1..] == rest[..|rest| - 1];
    }
  }

  lemma SameRest(a: seq<Voce>, b: seq<Voce>, i: nat)
    requires multiset(a) == multiset(b) && a != [] && i < |b| && b[i] == a[|a| - 1]
    ensures multiset(a[..|a| - 1]) == multiset(b[..i] + b[i + 1..])
  {
    var n := |a| - 1;
    assert a == a[..n] + [a[n]];
    assert b == b[..i] + [b[i]] + b[i + 1..];
    assert multiset(a) - multiset{a[n]} == multiset(a[..n]);
    assert multiset(b) - multiset{b[i]} == multiset(b[..i] + b[i + 1..]);
  }

  lemma {:induction false} SumOfPermutation(f: Voce -> real, a: seq<Voce>, b: seq<Voce>)
    requires multiset(a) == multiset(b)
    ensures Sum(f, a) == Sum(f, b)
    decreases |a|
  {
    assert |multiset(a)| == |a| && |multiset(b)| == |b|;
    if a != [] {
      var n := |a| - 1;
      assert a[n] in multiset(b);
      var i :| 0 <= i < |b| && b[i] == a[n];
      SameRest(a, b, i);
      SumOfPermutation(f, a[..n], b[..i] + b[i + 1..]);
      SumWithout(f, b, i);
    }
  }

  /** The order of the rows does not matter. */
  lemma TotaliOfPermutation(a: seq<Voce>, b: seq<Voce>)
    requires multiset(a) == multiset(b)
    ensures TotaliDi(a) == TotaliDi(b)
  {
    SumOfPermutation(Riga, a, b);
    SumOfPermutation(Iva, a, b);
  }

  // ---------------------------------------------------------------------------
  // Stored totals: transactions of create and update, interleaved at their statements
  // ---------------------------------------------------------------------------

  type QuoteId = nat
  type TxId = nat

  datatype Row = Row(quote: QuoteId, voce: Voce, totaleRiga: real)

  datatype Phase =
    | Computed               // totals computed, nothing written
    | HeaderWritten          // header inserted or updated: its row is locked until the end
    | Cleared(gone: set<Row>)   // deleteMany on the rows it could see
    | Replaced(gone: set<Row>)  // createMany of the new rows

  /** voci is None for an update that carries no rows. */
  datatype Tx = Tx(quote: QuoteId, voci: Option<seq<Voce>>, creating: bool, phase: Phase)

  /** Committed tables, and the transactions under way. */
  datatype World = World(totali: map<QuoteId, Totali>, rows: seq<Row>, txs: map<TxId, Tx>)

  datatype Event =
    | BeginCreate(id: TxId, quote: QuoteId, voci: seq<Voce>)
    | BeginUpdate(id: TxId, quote: QuoteId, changed: Option<seq<Voce>>)
    | WriteHeader(id: TxId)
    | DeleteVoci(id: TxId)
    | InsertVoci(id: TxId)
    | CommitTx(id: TxId)
    | AbortTx(id: TxId)

  function NewRows(quote: QuoteId, voci: seq<Voce>): seq<Row> {
    seq(|voci|, i requires 0 <= i < |voci| => Row(quote, voci[i], Riga(voci[i])))
  }

  function Without(rows: seq<Row>, gone: set<Row>): seq<Row> {
    if rows == [] then []
    else if rows[0] in gone then Without(rows[1..], gone)
    else [rows[0]] + Without(rows[1..], gone)
  }

  function VociOf(rows: seq<Row>, quote: QuoteId): seq<Voce> {
    if rows == [] then []
    else if rows[0].quote == quote then [rows[0].voce] + VociOf(rows[1..], quote)
    else VociOf(rows[1..], quote)
  }

  function RowsOf(rows: seq<Row>, quote: QuoteId): set<Row> {
    set row | row in rows && row.quote == quote
  }

  predicate LockedByOther(w: World, id: TxId, quote: QuoteId) {
    exists other :: other in w.txs && other != id && w.txs[other].quote == quote && !w.txs[other].phase.Computed?
  }

  predicate InUse(w: World, quote: QuoteId) {
    quote in w.totali || exists other :: other in w.txs && w.txs[other].quote == quote
  }

  function InPhase(w: World, id: TxId, phase: Phase): World
    requires id in w.txs
  {
    w.(txs := w.txs[id := w.txs[id].(phase := phase)])
  }

  predicate CanCommit(t: Tx) {
    t.phase.Replaced? || (t.phase.HeaderWritten? && t.voci.None?)
  }

  function Committed(w: World, id: TxId): World
    requires id in w.txs && CanCommit(w.txs[id])
  {
    var t := w.txs[id];
    if t.voci.None? || !t.phase.Replaced? then w.(txs := w.txs - {id})
    else World(w.totali[t.quote := TotaliDi(t.voci.value)],
               Without(w.rows, t.phase.gone) + NewRows(t.quote, t.voci.value),
               w.txs - {id})
  }

  /** One event; what is not enabled, because it has to wait or its turn has not come, changes nothing. */
  function Step(w: World, e: Event): World {
    match e
    case BeginCreate(id, quote, voci) =>
      if id in w.txs || InUse(w, quote) then w else w.(txs := w.txs[id := Tx(quote, Some(voci), true, Computed)])
    case BeginUpdate(id, quote, changed) =>
      if id in w.txs || quote !in w.totali then w else w.(txs := w.txs[id := Tx(quote, changed, false, Computed)])
    case WriteHeader(id) =>
      if id !in w.txs || !w.txs[id].phase.Computed? || LockedByOther(w, id, w.txs[id].quote) then w
      else InPhase(w, id, HeaderWritten)
    case DeleteVoci(id) =>
      if id !in w.txs || !w.txs[id].phase.HeaderWritten? || w.txs[id].voci.None? || w.txs[id].creating then w
      else InPhase(w, id, Cleared(RowsOf(w.rows, w.txs[id].quote)))
    case InsertVoci(id) =>
      if id !in w.txs || w.txs[id].voci.None? then w
      else if w.txs[id].creating && w.txs[id].phase.HeaderWritten? then InPhase(w, id, Replaced({}))
      else if w.txs[id].phase.Cleared? then InPhase(w, id, Replaced(w.txs[id].phase.gone))
      else w
    case CommitTx(id) => if id in w.txs && CanCommit(w.txs[id]) then Committed(w, id) else w
    case AbortTx(id) => w.(txs := w.txs - {id})
  }

  function Run(w: World, events: seq<Event>): World
    decreases |events|
  {
    if events == [] then w else Run(Step(w, events[0]), events[1..])
  }

  /** What is stored: the three totals of each quote are those of its rows, and so is each row's. */
  predicate StoredTotals(w: World) {
    && (forall q :: q in w.totali ==> w.totali[q] == TotaliDi(VociOf(w.rows, q)))
    && (forall row :: row in w.rows ==> row.quote in w.totali && row.totaleRiga == Riga(row.voce))
  }

  predicate TxOk(w: World, t: Tx) {
    && (t.creating <==> t.quote !in w.totali)
    && (t.creating ==> t.voci.Some?)
    && (t.phase.Cleared? || t.phase.Replaced? ==> t.voci.Some? && t.phase.gone == RowsOf(w.rows, t.quote))
  }

  /** One creates its quote, or both hold the lock of theirs. */
  predicate Excludes(t: Tx, u: Tx) {
    t.creating || (!t.phase.Computed? && !u.phase.Computed?)
  }

  predicate Inv(w: World) {
    && StoredTotals(w)
    && (forall id :: id in w.txs ==> TxOk(w, w.txs[id]))
    && (forall i, j :: (i in w.txs && j in w.txs && i != j && Excludes(w.txs[i], w.txs[j])) ==>
          w.txs[i].quote != w.txs[j].quote)
  }

  lemma {:induction false} VociOfConcat(a: seq<Row>, b: seq<Row>, quote: QuoteId)
    ensures VociOf(a + b, quote) == VociOf(a, quote) + VociOf(b, quote)
  {
    if a == [] {
      assert a + b == b;
    } else {
      assert (a + b)[1..] == a[1..] + b;
      VociOfConcat(a[1..], b, quote);
    }
  }

  lemma {:induction false} VociOfNew(quote: QuoteId, voci: seq<Voce>, q: QuoteId)
    ensures VociOf(NewRows(quote, voci), q) == if q == quote then voci else []
  {
    if voci == [] {
    } else {
      assert NewRows(quote, voci)[1..] == NewRows(quote, voci[1..]);
      VociOfNew(quote, voci[1..], q);
    }
  }

  lemma {:induction false} VociOfWithout(rows: seq<Row>, gone: set<Row>, quote: QuoteId, q: QuoteId)
    requires forall row :: row in gone ==> row.quote == quote
    requires forall row :: row in rows && row.quote == quote ==> row in gone
    ensures VociOf(Without(rows, gone), q) == if q == quote then [] else VociOf(rows, q)
  {
    if rows == [] {
    } else {
      VociOfWithout(rows[1..], gone, quote, q);
      if rows[0] !in gone {
        assert Without(rows, gone)[1..] == Without(rows[1..], gone);
      }
    }
  }

  lemma {:induction false} WithoutRows(rows: seq<Row>, gone: set<Row>, row: Row)
    ensures row in Without(rows, gone) <==> row in rows && row !in gone
  {
    if rows == [] {
    } else {
      WithoutRows(rows[1..], gone, row);
    }
  }

  /** The commit of new rows: they and their totals are the quote's, and other quotes keep theirs. */
  lemma CommitStores(w: World, id: TxId)
    requires Inv(w) && id in w.txs && w.txs[id].phase.Replaced?
    ensures StoredTotals(Committed(w, id))
    ensures
      var w', t := Committed(w, id), w.txs[id];
      && t.voci.Some? && w'.totali == w.totali[t.quote := TotaliDi(t.voci.value)]
      && forall q :: VociOf(w'.rows, q) == if q == t.quote then t.voci.value else VociOf(w.rows, q)
  {
    var t, w' := w.txs[id], Committed(w, id);
    assert TxOk(w, t);
    var kept, added := Without(w.rows, t.phase.gone), NewRows(t.quote, t.voci.value);
    forall q ensures VociOf(w'.rows, q) == if q == t.quote then t.voci.value else VociOf(w.rows, q) {
      VociOfConcat(kept, added, q);
      VociOfNew(t.quote, t.voci.value, q);
      VociOfWithout(w.rows, t.phase.gone, t.quote, q);
    }
    forall row | row in w'.rows ensures row.quote in w'.totali && row.totaleRiga == Riga(row.voce) {
      WithoutRows(w.rows, t.phase.gone, row);
    }
  }

  lemma CommitRows(w: World, id: TxId, quote: QuoteId)
    requires Inv(w) && id in w.txs && w.txs[id].phase.Replaced? && quote != w.txs[id].quote
    ensures RowsOf(Committed(w, id).rows, quote) == RowsOf(w.rows, quote)
  {
    var t, w' := w.txs[id], Committed(w, id);
    assert TxOk(w, t);
    forall row ensures row in RowsOf(w'.rows, quote) <==> row in RowsOf(w.rows, quote) {
      WithoutRows(w.rows, t.phase.gone, row);
    }
  }

  lemma CommitKeeps(w: World, id: TxId)
    requires Inv(w) && id in w.txs && w.txs[id].phase.Replaced?
    ensures Inv(Committed(w, id))
  {
    var t, w' := w.txs[id], Committed(w, id);
    CommitStores(w, id);
    forall other | other in w'.txs ensures TxOk(w', w'.txs[other]) {
      var u := w.txs[other];
      assert w'.txs[other] == u && TxOk(w, u);
      if u.quote != t.quote {
        CommitRows(w, id, u.quote);
      }
    }
  }

  /** A transaction begins or moves on; only a lock nobody else has, and a quote nobody uses. */
  lemma TxMovesKeeps(w: World, id: TxId, t: Tx)
    requires Inv(w) && TxOk(w, t)
    requires !t.phase.Computed? ==> !LockedByOther(w, id, t.quote)
    requires id in w.txs ==> w.txs[id].quote == t.quote && w.txs[id].creating == t.creating
    requires id !in w.txs ==> !(t.creating && InUse(w, t.quote))
    ensures Inv(w.(txs := w.txs[id := t]))
  {
    var w' := w.(txs := w.txs[id := t]);
    forall i | i in w'.txs ensures TxOk(w', w'.txs[i]) {
      assert i != id ==> TxOk(w, w.txs[i]);
    }
    forall i | i in w.txs && i != id ensures (t.creating || w.txs[i].creating) ==> w.txs[i].quote != t.quote {
      assert TxOk(w, w.txs[i]);
    }
  }

  lemma HolderIsAlone(w: World, id: TxId)
    requires Inv(w) && id in w.txs && !w.txs[id].phase.Computed?
    ensures !LockedByOther(w, id, w.txs[id].quote)
  {
  }

  lemma EndKeeps(w: World, id: TxId)
    requires Inv(w)
    ensures Inv(w.(txs := w.txs - {id}))
  {
    var w' := w.(txs := w.txs - {id});
    forall i | i in w'.txs ensures TxOk(w', w'.txs[i]) {
      assert TxOk(w, w.txs[i]);
    }
  }

  lemma StepKeeps(w: World, e: Event)
    requires Inv(w)
    ensures Inv(Step(w, e))
  {
    match e
    case BeginCreate(id, quote, voci) =>
      if id !in w.txs && !InUse(w, quote) { TxMovesKeeps(w, id, Tx(quote, Some(voci), true, Computed)); }
    case BeginUpdate(id, quote, changed) =>
      if id !in w.txs && quote in w.totali { TxMovesKeeps(w, id, Tx(quote, changed, false, Computed)); }
    case CommitTx(id) =>
      if id in w.txs && w.txs[id].phase.Replaced? {
        CommitKeeps(w, id);
      } else {
        EndKeeps(w, id);
      }
    case AbortTx(id) => EndKeeps(w, id);
    case WriteHeader(id) =>
      if Step(w, e) != w {
        assert TxOk(w, w.txs[id]);
        TxMovesKeeps(w, id, w.txs[id].(phase := HeaderWritten));
      }
    case DeleteVoci(id) =>
      if Step(w, e) != w {
        assert TxOk(w, w.txs[id]);
        HolderIsAlone(w, id);
        TxMovesKeeps(w, id, w.txs[id].(phase := Cleared(RowsOf(w.rows, w.txs[id].quote))));
      }
    case InsertVoci(id) =>
      if Step(w, e) != w {
        InsertKeeps(w, id);
      }
  }

  lemma InsertKeeps(w: World, id: TxId)
    requires Inv(w) && id in w.txs && !w.txs[id].phase.Computed? && w.txs[id].voci.Some?
    ensures Inv(Step(w, InsertVoci(id)))
  {
    var t := w.txs[id];
    assert TxOk(w, t);
    HolderIsAlone(w, id);
    if t.creating && t.phase.HeaderWritten? {
      assert RowsOf(w.rows, t.quote) == {};
      TxMovesKeeps(w, id, t.(phase := Replaced({})));
    } else if t.phase.Cleared? {
      TxMovesKeeps(w, id, t.(phase := Replaced(t.phase.gone)));
    }
  }

  /**
   * After any interleaving of creates and updates at their statements, updates of the same
   * quote included, with aborts and with updates that carry no rows.
   */
  lemma {:induction false} TotalsAlwaysStored(w: World, events: seq<Event>)
    requires Inv(w)
    ensures StoredTotals(Run(w, events)) && Inv(Run(w, events))
    decreases |events|
  {
    if events != [] {
      StepKeeps(w, events[0]);
      TotalsAlwaysStored(Step(w, events[0]), events[1..]);
    }
  }

  /** An event of one transaction, other than its commit. */
  predicate Uncommitted(e: Event, id: TxId) {
    !e.CommitTx? && e.id == id
  }

  /** A creation or an update that is rolled back, after any of its statements, leaves everything as it was. */
  lemma {:induction false} RollbackLeavesNothing(w: World, events: seq<Event>, id: TxId)
    requires forall i :: 0 <= i < |events| ==> Uncommitted(events[i], id)
    ensures Step(Run(w, events), AbortTx(id)) == w.(txs := w.txs - {id})
    decreases |events|
  {
    if events != [] {
      assert Uncommitted(events[0], id);
      var w1 := Step(w, events[0]);
      assert w1.txs - {id} == w.txs - {id} && w1 == w.(txs := w1.txs);
      RollbackLeavesNothing(w1, events[1..], id);
    }
  }

  lemma AloneIsSound(w: World, id: TxId, t: Tx)
    requires Inv(w) && w.txs == map[] && TxOk(w, t)
    ensures Inv(w.(txs := map[id := t]))
  {
  }

  /** With nobody else about, a creation goes through: the quote is stored, with its rows and their totals. */
  lemma CreationGoesThrough(w: World, id: TxId, quote: QuoteId, voci: seq<Voce>)
    requires Inv(w) && w.txs == map[] && quote !in w.totali
    ensures
      var begun := Step(w, BeginCreate(id, quote, voci));
      var w' := Step(Step(Step(begun, WriteHeader(id)), InsertVoci(id)), CommitTx(id));
      && w'.txs == map[] && w'.totali == w.totali[quote := TotaliDi(voci)]
      && forall q :: VociOf(w'.rows, q) == if q == quote then voci else VociOf(w.rows, q)
  {
    var w1 := Step(w, BeginCreate(id, quote, voci));
    assert w1 == w.(txs := map[id := Tx(quote, Some(voci), true, Computed)]);
    var w2 := Step(w1, WriteHeader(id));
    assert w2 == w.(txs := map[id := Tx(quote, Some(voci), true, HeaderWritten)]);
    var w3 := Step(w2, InsertVoci(id));
    assert w3 == w.(txs := map[id := Tx(quote, Some(voci), true, Replaced({}))]);
    assert RowsOf(w.rows, quote) == {};
    AloneIsSound(w, id, w3.txs[id]);
    CommitStores(w3, id);
    assert w3.txs - {id} == map[];
  }

  /** And so does an update with rows: the old ones are gone, the new ones and their totals stored. */
  lemma UpdateGoesThrough(w: World, id: TxId, quote: QuoteId, voci: seq<Voce>)
    requires Inv(w) && w.txs == map[] && quote in w.totali
    ensures
      var begun := Step(w, BeginUpdate(id, quote, Some(voci)));
      var w' := Step(Step(Step(Step(begun, WriteHeader(id)), DeleteVoci(id)), InsertVoci(id)), CommitTx(id));
      && w'.txs == map[] && w'.totali == w.totali[quote := TotaliDi(voci)]
      && forall q :: VociOf(w'.rows, q) == if q == quote then voci else VociOf(w.rows, q)
  {
    var gone := RowsOf(w.rows, quote);
    var w1 := Step(w, BeginUpdate(id, quote, Some(voci)));
    assert w1 == w.(txs := map[id := Tx(quote, Some(voci), false, Computed)]);
    var w2 := Step(w1, WriteHeader(id));
    assert w2 == w.(txs := map[id := Tx(quote, Some(voci), false, HeaderWritten)]);
    var w3 := Step(w2, DeleteVoci(id));
    assert w3 == w.(txs := map[id := Tx(quote, Some(voci), false, Cleared(gone))]);
    var w4 := Step(w3, InsertVoci(id));
    assert w4 == w.(txs := map[id := Tx(quote, Some(voci), false, Replaced(gone))]);
    AloneIsSound(w, id, w4.txs[id]);
    CommitStores(w4, id);
    assert w4.txs - {id} == map[];
  }

  /** In whatever order the rows of a quote are read back, its stored totals are theirs. */
  lemma StoredTotalsInAnyOrder(events: seq<Event>, quote: QuoteId, read: seq<Voce>)
    requires
      var w := Run(World(map[], [], map[]), events);
      quote in w.totali && multiset(read) == multiset(VociOf(w.rows, quote))
    ensures Run(World(map[], [], map[]), events).totali[quote] == TotaliDi(read)
  {
    TotalsAlwaysStored(World(map[], [], map[]), events);
    TotaliOfPermutation(read, VociOf(Run(World(map[], [], map[]), events).rows, quote));
  }

  // ---------------------------------------------------------------------------
  // The service, one request at a time
  // ---------------------------------------------------------------------------

  datatype PreventivoError = AziendaNotFound | PreventivoNotFound | CodiceExists

  class PreventiviService {
    const aziende: set<nat>
    var codici: map<QuoteId, string>
    var azienda: map<QuoteId, nat>
    var cestino: set<QuoteId>
    var totali: map<QuoteId, Totali>
    var rows: seq<Row>

    ghost function View(): World
      reads this
    {
      World(totali, rows, map[])
    }

    ghost predicate Valid()
      reads this
    {
      Inv(View()) && codici.Keys == azienda.Keys == totali.Keys && cestino <= totali.Keys
    }

    predicate CodiceTaken(codice: string, except: Option<QuoteId>)
      reads this
    {
      exists q :: q in codici && q !in cestino && except != Some(q) && codici[q] == codice
    }

    /** A new code for a quote: not empty, not the one it has, and another's. */
    predicate CodiceClashes(q: QuoteId, codice: string)
      requires q in codici
      reads this
    {
      codice != "" && codice != codici[q] && CodiceTaken(codice, Some(q))
    }

    constructor (aziende: set<nat>)
      ensures Valid() && totali == map[] && this.aziende == aziende
    {
      this.aziende := aziende;
      codici, azienda, cestino, totali, rows := map[], map[], {}, map[], [];
    }

    /** The transaction: the totals of the header, the old rows deleted, the new ones created. */
    method StoreVoci(q: QuoteId, voci: seq<Voce>)
      requires Inv(View())
      modifies this`totali, this`rows
      ensures Inv(View()) && totali == old(totali)[q := TotaliDi(voci)]
      ensures forall other :: VociOf(rows, other) == if other == q then voci else VociOf(old(rows), other)
    {
      var perVoce, t := ComputeTotali(voci);
      var gone := RowsOf(rows, q);
      var added := seq(|voci|, i requires 0 <= i < |voci| => Row(q, voci[i], perVoce[i]));
      assert added == NewRows(q, voci);
      var after := Without(rows, gone) + added;
      ReplacedRows(rows, q, voci, after);
      ReplacedStores(View(), q, voci);
      totali := totali[q := t];
      rows := after;
    }

    /** create: header and rows in one transaction, under a fresh id. */
    method Create(nuovo: QuoteId, owner: nat, codice: string, voci: seq<Voce>)
        returns (r: Result<QuoteId, PreventivoError>)
      requires Valid() && nuovo !in totali
      modifies this
      ensures Valid()
      ensures r == if owner !in aziende then Err(AziendaNotFound)
                   else if exists q :: q in old(codici) && q !in old(cestino) && old(codici)[q] == codice
                     then Err(CodiceExists)
                   else Ok(nuovo)
      ensures r.Err? ==> View() == old(View()) && codici == old(codici) && azienda == old(azienda)
      ensures r.Ok? ==>
        && totali == old(totali)[nuovo := TotaliDi(voci)]
        && (forall q :: VociOf(rows, q) == if q == nuovo then voci else VociOf(old(rows), q))
        && codici == old(codici)[nuovo := codice] && azienda == old(azienda)[nuovo := owner]
      ensures cestino == old(cestino)
    {
      if owner !in aziende { return Err(AziendaNotFound); }
      var taken := CodiceTaken(codice, None);
      if taken { return Err(CodiceExists); }
      StoreVoci(nuovo, voci);
      codici, azienda := codici[nuovo := codice], azienda[nuovo := owner];
      r := Ok(nuovo);
    }

    /** update: the header, and, when the request carries rows, all the rows replaced. */
    method Update(owner: nat, q: QuoteId, codice: Option<string>, voci: Option<seq<Voce>>)
        returns (r: Result<(), PreventivoError>)
      requires Valid()
      modifies this
      ensures Valid()
      ensures r == if q !in old(totali) || q in old(cestino) || old(azienda)[q] != owner then Err(PreventivoNotFound)
                   else if && codice.Some? && codice.value != "" && codice.value != old(codici)[q]
                           && exists p :: p in old(codici) && p !in old(cestino) && old(codici)[p] == codice.value
                     then Err(CodiceExists)
                   else Ok(())
      ensures r.Err? || voci.None? ==> View() == old(View())
      ensures r.Ok? && voci.Some? ==>
        && totali == old(totali)[q := TotaliDi(voci.value)]
        && (forall other :: VociOf(rows, other) == if other == q then voci.value else VociOf(old(rows), other))
      ensures codici == if r.Ok? && codice.Some? then old(codici)[q := codice.value] else old(codici)
      ensures cestino == old(cestino) && azienda == old(azienda)
    {
      if q !in totali || q in cestino || azienda[q] != owner { return Err(PreventivoNotFound); }
      if codice.Some? {
        var clash := CodiceClashes(q, codice.value);
        if clash { return Err(CodiceExists); }
      }
      if codice.Some? { codici := codici[q := codice.value]; }
      if voci.Some? { StoreVoci(q, voci.value); }
      r := Ok(());
    }

    /** softDelete: the quote goes to the trash, its rows stay. */
    method SoftDelete(owner: nat, q: QuoteId) returns (r: Result<(), PreventivoError>)
      requires Valid()
      modifies this
      ensures Valid() && View() == old(View()) && codici == old(codici) && azienda == old(azienda)
      ensures r == if q in totali && q !in old(cestino) && azienda[q] == owner then Ok(()) else Err(PreventivoNotFound)
      ensures cestino == if r.Ok? then old(cestino) + {q} else old(cestino)
    {
      if q !in totali || q in cestino || azienda[q] != owner { return Err(PreventivoNotFound); }
      cestino := cestino + {q};
      r := Ok(());
    }
  }

  lemma ReplacedRows(rows: seq<Row>, quote: QuoteId, voci: seq<Voce>, after: seq<Row>)
    requires after == Without(rows, RowsOf(rows, quote)) + NewRows(quote, voci)
    ensures forall q :: VociOf(after, q) == if q == quote then voci else VociOf(rows, q)
  {
    var gone := RowsOf(rows, quote);
    forall q ensures VociOf(after, q) == if q == quote then voci else VociOf(rows, q) {
      VociOfConcat(Without(rows, gone), NewRows(quote, voci), q);
      VociOfNew(quote, voci, q);
      VociOfWithout(rows, gone, quote, q);
    }
  }

  /** A replacement with nobody else about: a commit of the protocol above. */
  lemma ReplacedStores(w: World, quote: QuoteId, voci: seq<Voce>)
    requires Inv(w) && w.txs == map[]
    ensures Inv(World(w.totali[quote := TotaliDi(voci)],
      Without(w.rows, RowsOf(w.rows, quote)) + NewRows(quote, voci), map[]))
  {
    var t := Tx(quote, Some(voci), quote !in w.totali, Replaced(RowsOf(w.rows, quote)));
    var before := w.(txs := map[0 := t]);
    assert StoredTotals(before) && TxOk(before, t);
    CommitStores(before, 0);
  }
}
