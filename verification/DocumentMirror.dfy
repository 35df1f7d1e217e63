/**
 The mirror of a remote fiscal document on a sale, credit note or debit note row. Webhooks, polls,
 retries and the outbox call all deliver versions of the same document, in any order and any number
 of times; the row keeps the version with the newest remote timestamp. Notes also raise the number
 of their series.
 */
module DocumentMirror {
  import opened Wrappers

  datatype Status =
    | RECEIVED | VALIDATING | QUEUED | PROCESSING | ACCEPTED | ACCEPTED_WITH_OBSERVATIONS
    | REJECTED | RETRY_SCHEDULED | FAILED

  datatype SunatEstado =
    pendiente_envio | enviando | aceptado | observado | rechazado | error_transitorio | error_definitivo

  datatype Documento = Documento(
    id: nat, produccion: bool, status: Status, serie: string, numero: nat, codigo: Option<string>, mensaje: Option<string>)

  /** One arrival of a version; a version without a timestamp is dated by its arrival. */
  datatype Entrega = Entrega(doc: Documento, updatedAt: Option<int>, llegada: int)

  /** The mirrored columns. */
  datatype Campos = Campos(
    documento: nat, produccion: bool, status: Status, serie: string, numero: nat,
    sunatEstado: SunatEstado, codigo: Option<string>, mensaje: Option<string>, lastError: Option<string>)

  datatype Fila = Fila(campos: Option<Campos>, updatedAt: Option<int>, numeroActual: nat)

  function Instante(e: Entrega): int { if e.updatedAt.Some? then e.updatedAt.value else e.llegada }

  function NormalizeStatus(s: Status): Status { if s == RECEIVED || s == VALIDATING then QUEUED else s }

  function SunatStatus(s: Status): SunatEstado {
    match s
    case RECEIVED => pendiente_envio
    case VALIDATING => pendiente_envio
    case QUEUED => pendiente_envio
    case PROCESSING => enviando
    case ACCEPTED => aceptado
    case ACCEPTED_WITH_OBSERVATIONS => observado
    case REJECTED => rechazado
    case RETRY_SCHEDULED => error_transitorio
    case FAILED => error_definitivo
  }

  function Reflejo(d: Documento): Campos {
    var s := NormalizeStatus(d.status);
    Campos(d.id, d.produccion, s, d.serie, d.numero, SunatStatus(s), d.codigo, d.mensaje,
           if s == FAILED || s == REJECTED
           then Some(if d.mensaje.Some? then d.mensaje.value else "Billing no pudo emitir el comprobante") else None)
  }

  /**
   The tax state mirrored from a document never disagrees with its billing status: each of the final
   and failed states stands for one status of the document, and only the first three are pending.
   The other columns are the document's.
   */
  lemma ReflejoIsConsistent(d: Documento)
    ensures var c := Reflejo(d);
            && (c.sunatEstado == aceptado || c.sunatEstado == observado <==> c.status == ACCEPTED || c.status == ACCEPTED_WITH_OBSERVATIONS)
            && (c.lastError.Some? <==> c.sunatEstado == rechazado || c.sunatEstado == error_definitivo)
            && (c.lastError.Some? && d.mensaje.Some? ==> c.lastError == d.mensaje)
            && c.status != RECEIVED && c.status != VALIDATING
            && (c.sunatEstado == pendiente_envio <==> d.status in {RECEIVED, VALIDATING, QUEUED})
            && (c.sunatEstado == enviando <==> d.status == PROCESSING)
            && (c.sunatEstado == aceptado <==> d.status == ACCEPTED)
            && (c.sunatEstado == observado <==> d.status == ACCEPTED_WITH_OBSERVATIONS)
            && (c.sunatEstado == rechazado <==> d.status == REJECTED)
            && (c.sunatEstado == error_transitorio <==> d.status == RETRY_SCHEDULED)
            && (c.sunatEstado == error_definitivo <==> d.status == FAILED)
            && c.status == (if d.status in {RECEIVED, VALIDATING} then QUEUED else d.status)
            && c.documento == d.id && c.produccion == d.produccion && c.serie == d.serie && c.numero == d.numero
            && c.codigo == d.codigo && c.mensaje == d.mensaje
  {
  }

  predicate Atrasada(f: Fila, e: Entrega) { f.updatedAt.Some? && f.updatedAt.value > Instante(e) }

  /** The write of applyDocument, with the conditional raise of the series number. */
  function Escrita(f: Fila, e: Entrega): Fila {
    Fila(Some(Reflejo(e.doc)), Some(Instante(e)),
         if f.numeroActual < e.doc.numero then e.doc.numero else f.numeroActual)
  }

  /** applyDocument with no other delivery between its read and its write. */
  function Aplicar(f: Fila, e: Entrega): Fila { if Atrasada(f, e) then f else Escrita(f, e) }

  function AplicarTodas(f: Fila, es: seq<Entrega>): Fila {
    if |es| == 0 then f else Aplicar(AplicarTodas(f, es[..|es| - 1]), es[|es| - 1])
  }

  // ---------------------------------------------------------------- last writer wins

  /** e is as new as every delivery of es. */
  ghost predicate MasNueva(e: Entrega, es: seq<Entrega>) {
    forall i :: 0 <= i < |es| ==> Instante(es[i]) <= Instante(e)
  }

  /** A timestamp names a version: two deliveries with the same instant carry the same document. */
  ghost predicate SinEmpates(es: seq<Entrega>) {
    forall i, j :: 0 <= i < |es| && 0 <= j < |es| && Instante(es[i]) == Instante(es[j]) ==> es[i].doc == es[j].doc
  }

  /** The mirrored columns and their timestamp: everything but the series. */
  function Espejo(f: Fila): (Option<Campos>, Option<int>) { (f.campos, f.updatedAt) }

  /** What the row must hold after deliveries whose newest is n. */
  function Ganador(f: Fila, n: Entrega): (Option<Campos>, Option<int>) {
    if Atrasada(f, n) then Espejo(f) else (Some(Reflejo(n.doc)), Some(Instante(n)))
  }

  /** Whatever the order and the repetitions, the row ends as if only the newest version had arrived. */
  lemma {:induction false} NewestWins(f: Fila, es: seq<Entrega>, n: Entrega)
    requires SinEmpates(es) && n in es && MasNueva(n, es)
    ensures Espejo(AplicarTodas(f, es)) == Ganador(f, n)
  {
    hide Reflejo, Instante;
    var u, e := es[..|es| - 1], es[|es| - 1];
    var j :| 0 <= j < |es| && es[j] == n;
    assert Instante(e) <= Instante(n);
    if |u| == 0 {
      assert AplicarTodas(f, u) == f;
    } else {
      var k := IndiceMasNuevo(u);
      NewestWins(f, u, u[k]);
      assert u[k] == es[k];
      if j < |u| { assert u[j] == n; }
    }
  }

  lemma {:induction false} IndiceMasNuevo(es: seq<Entrega>) returns (k: nat)
    requires |es| > 0
    ensures k < |es| && MasNueva(es[k], es)
  {
    var n := |es| - 1;
    if n == 0 { return 0; }
    k := IndiceMasNuevo(es[..n]);
    assert es[..n][k] == es[k];
    assert forall i :: 0 <= i < n ==> es[..n][i] == es[i];
    if Instante(es[k]) <= Instante(es[n]) { k := n; }
  }

  /** Deliveries of the same versions leave the same mirror, in any order and with any duplication. */
  lemma Convergence(f: Fila, es: seq<Entrega>, ds: seq<Entrega>)
    requires SinEmpates(es) && (forall e :: e in es <==> e in ds)
    ensures Espejo(AplicarTodas(f, es)) == Espejo(AplicarTodas(f, ds))
  {
    if |ds| > 0 { assert ds[0] in ds; }
    if |es| == 0 { return; }
    var k := IndiceMasNuevo(es);
    NewestWins(f, es, es[k]);
    assert es[k] in ds;
    forall i | 0 <= i < |ds| ensures ds[i] in es { assert ds[i] in ds; }
    assert MasNueva(es[k], ds);
    assert SinEmpates(ds);
    NewestWins(f, ds, es[k]);
  }

  /** Two versions of one instant: the last to arrive wins, so the order shows unless they mirror alike. */
  lemma TieKeepsOrderIff(f: Fila, a: Entrega, b: Entrega)
    requires Instante(a) == Instante(b) && !Atrasada(f, a)
    ensures Espejo(AplicarTodas(f, [a, b])) == Espejo(AplicarTodas(f, [b, a])) <==> Reflejo(a.doc) == Reflejo(b.doc)
  {
    OneThenOther(f, a, b);
    OneThenOther(f, b, a);
  }

  lemma OneThenOther(f: Fila, a: Entrega, b: Entrega)
    ensures AplicarTodas(f, [a, b]) == Aplicar(Aplicar(f, a), b)
  {
    hide Aplicar;
    assert [a][..0] == [] && [a, b][..1] == [a];
    assert AplicarTodas(f, []) == f;
    assert AplicarTodas(f, [a]) == Aplicar(AplicarTodas(f, [a][..0]), [a][0]);
    assert AplicarTodas(f, [a, b]) == Aplicar(AplicarTodas(f, [a, b][..1]), [a, b][1]);
  }

  predicate NoAnterior(a: Option<int>, b: Option<int>) { a.None? || (b.Some? && a.value <= b.value) }

  /** Delivery by delivery the mirror's timestamp and the series number never go back. */
  lemma {:induction false} MirrorNeverGoesBack(f: Fila, es: seq<Entrega>, n: nat)
    requires n <= |es|
    ensures NoAnterior(AplicarTodas(f, es[..n]).updatedAt, AplicarTodas(f, es).updatedAt)
    ensures AplicarTodas(f, es[..n]).numeroActual <= AplicarTodas(f, es).numeroActual
    decreases |es|
  {
    if n == |es| {
      assert es[..n] == es;
    } else {
      assert es[..|es| - 1][..n] == es[..n];
      MirrorNeverGoesBack(f, es[..|es| - 1], n);
    }
  }

  // ---------------------------------------------------------------- read and write are two steps

  /** The row and the deliveries that have passed their read and not yet written. */
  datatype Mundo = Mundo(fila: Fila, leidas: map<nat, Entrega>)

  datatype Evento = Leer(w: nat, e: Entrega) | Escribir(w: nat) | Caer(w: nat)

  function Paso(m: Mundo, ev: Evento): Mundo {
    match ev
    case Leer(w, e) => if w in m.leidas || Atrasada(m.fila, e) then m else m.(leidas := m.leidas[w := e])
    case Escribir(w) =>
      if w in m.leidas then Mundo(Escrita(m.fila, m.leidas[w]), m.leidas - {w}) else m
    case Caer(w) => m.(leidas := m.leidas - {w})
  }

  function Correr(m: Mundo, evs: seq<Evento>): Mundo {
    if |evs| == 0 then m else Paso(Correr(m, evs[..|evs| - 1]), evs[|evs| - 1])
  }

  ghost predicate DesdeDe(base: Fila, m: Mundo) {
    && NoAnterior(base.updatedAt, m.fila.updatedAt)
    && base.numeroActual <= m.fila.numeroActual
    && forall w :: w in m.leidas ==> !Atrasada(base, m.leidas[w])
  }

  lemma PasoKeepsDesde(base: Fila, m: Mundo, ev: Evento)
    requires DesdeDe(base, m)
    ensures DesdeDe(base, Paso(m, ev)) && m.fila.numeroActual <= Paso(m, ev).fila.numeroActual
  {
  }

  /**
   Under any interleaving of reads and writes the row is never older than when the deliveries in
   flight began, and the series number never decreases.
   */
  lemma {:induction false} RaceNeverPredatesStart(m: Mundo, evs: seq<Evento>)
    requires m.leidas == map[]
    ensures DesdeDe(m.fila, Correr(m, evs))
  {
    if |evs| == 0 {
    } else {
      RaceNeverPredatesStart(m, evs[..|evs| - 1]);
      PasoKeepsDesde(m.fila, Correr(m, evs[..|evs| - 1]), evs[|evs| - 1]);
    }
  }

  /** The deliveries written along a run, in the order of their writes. */
  function Escritas(m: Mundo, evs: seq<Evento>): seq<Entrega> {
    if |evs| == 0 then []
    else
      var a, ev := Correr(m, evs[..|evs| - 1]), evs[|evs| - 1];
      Escritas(m, evs[..|evs| - 1]) + (if ev.Escribir? && ev.w in a.leidas then [a.leidas[ev.w]] else [])
  }

  lemma {:induction false} LastWriteStays(m: Mundo, evs: seq<Evento>)
    ensures var es := Escritas(m, evs);
            Espejo(Correr(m, evs).fila) ==
              if |es| == 0 then Espejo(m.fila) else (Some(Reflejo(es[|es| - 1].doc)), Some(Instante(es[|es| - 1])))
  {
    hide Reflejo, Instante;
    if |evs| == 0 {
    } else {
      LastWriteStays(m, evs[..|evs| - 1]);
    }
  }

  /**
   Whatever order the versions are written in, and however they overlap, the series stands at the
   highest of its first number and the numbers written: at least each of them, and one of them.
   */
  lemma {:induction false} SeriesIsHighest(m: Mundo, evs: seq<Evento>)
    ensures m.fila.numeroActual <= Correr(m, evs).fila.numeroActual
    ensures forall e :: e in Escritas(m, evs) ==> e.doc.numero <= Correr(m, evs).fila.numeroActual
    ensures Correr(m, evs).fila.numeroActual == m.fila.numeroActual
            || exists e :: e in Escritas(m, evs) && e.doc.numero == Correr(m, evs).fila.numeroActual
  {
    if |evs| == 0 {
    } else {
      SeriesIsHighest(m, evs[..|evs| - 1]);
    }
  }

  /**
   Under any interleaving of reads and writes, overlaps and stops included, the mirror ends with the
   newest of the versions written exactly when the last write carries that version.
   */
  lemma RaceKeepsNewestIff(m: Mundo, evs: seq<Evento>, n: Entrega)
    requires n in Escritas(m, evs) && MasNueva(n, Escritas(m, evs)) && SinEmpates(Escritas(m, evs))
    ensures var es := Escritas(m, evs);
            Espejo(Correr(m, evs).fila) == (Some(Reflejo(n.doc)), Some(Instante(n))) <==> Instante(es[|es| - 1]) == Instante(n)
  {
    hide Reflejo, Instante;
    LastWriteStays(m, evs);
    var es := Escritas(m, evs);
    var i :| 0 <= i < |es| && es[i] == n;
    assert Instante(es[i]) == Instante(es[|es| - 1]) ==> es[i].doc == es[|es| - 1].doc;
  }

  /** Two versions that both read before either writes: the older one, writing last, replaces the newer. */
  lemma OlderCanReplaceNewer(m: Mundo, a: Entrega, b: Entrega)
    requires m.leidas == map[] && !Atrasada(m.fila, a) && !Atrasada(m.fila, b) && Instante(b) < Instante(a)
    ensures var evs := [Leer(0, a), Leer(1, b), Escribir(0), Escribir(1)];
            Escritas(m, evs) == [a, b] && Correr(m, evs).fila.updatedAt == Some(Instante(b))
  {
    hide Instante, Reflejo;
    var e1, e2, e3, e4 := [Leer(0, a)], [Leer(0, a), Leer(1, b)], [Leer(0, a), Leer(1, b), Escribir(0)], [Leer(0, a), Leer(1, b), Escribir(0), Escribir(1)];
    assert e4[..3] == e3 && e3[..2] == e2 && e2[..1] == e1 && e1[..0] == [];
    assert Correr(m, []) == m && Escritas(m, []) == [];
    assert Correr(m, e1) == Paso(m, Leer(0, a)) && Escritas(m, e1) == [];
    assert Correr(m, e2).leidas == map[0 := a, 1 := b] && Escritas(m, e2) == [];
    assert Correr(m, e3).leidas == map[1 := b] && Escritas(m, e3) == [a];
  }

  /** Deliveries that each write before the next one reads. */
  function EnSerie(es: seq<Entrega>): seq<Evento> {
    if |es| == 0 then [] else EnSerie(es[..|es| - 1]) + [Leer(0, es[|es| - 1]), Escribir(0)]
  }

  /** Without overlap the two-step protocol is exactly last-writer-wins. */
  lemma {:induction false} SerialDeliveriesAreAplicar(f: Fila, es: seq<Entrega>)
    ensures Correr(Mundo(f, map[]), EnSerie(es)) == Mundo(AplicarTodas(f, es), map[])
  {
    if |es| == 0 {
    } else {
      var u, e := es[..|es| - 1], es[|es| - 1];
      SerialDeliveriesAreAplicar(f, u);
      var evs := EnSerie(u);
      var a := evs + [Leer(0, e)];
      assert EnSerie(es) == a + [Escribir(0)];
      assert EnSerie(es)[..|a|] == a && a[..|evs|] == evs;
      var m := Paso(Correr(Mundo(f, map[]), evs), Leer(0, e));
      assert Correr(Mundo(f, map[]), a) == m;
      if !Atrasada(AplicarTodas(f, u), e) {
        assert m.leidas - {0} == map[];
      }
    }
  }

  // ---------------------------------------------------------------- applyDocument as written

  class NoteRow {
    var campos: Option<Campos>
    var updatedAt: Option<int>
    var numeroActual: nat

    ghost function Row(): Fila
      reads this
    {
      Fila(campos, updatedAt, numeroActual)
    }

    constructor (numero: nat)
      ensures Row() == Fila(None, None, numero)
    {
      campos, updatedAt, numeroActual := None, None, numero;
    }

    method ApplyDocument(e: Entrega)
      modifies this
      ensures Row() == Aplicar(old(Row()), e)
      ensures NoAnterior(old(updatedAt), updatedAt) && old(numeroActual) <= numeroActual
    {
      var instante := if e.updatedAt.Some? then e.updatedAt.value else e.llegada;
      if updatedAt.Some? && updatedAt.value > instante { return; }
      campos, updatedAt := Some(Reflejo(e.doc)), Some(instante);
      if numeroActual < e.doc.numero {
        numeroActual := e.doc.numero;
      }
    }
  }
}
