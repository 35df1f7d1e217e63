/**
 The commercial effects of one debit note under concurrent deliveries of its remote document.
 A delivery (outbox call, poll or operator retry) reads the note, writes the mirror, and then, in
 a third transaction, applies the effects; any number of them interleave, with each other and with
 every other transaction on the account, and each may stop between two of its steps.
 */
module DebitNoteEffects {
  import opened Sums
  import opened Receivable
  import opened ReceivableLaws
  import R = ReceivableRuns

  /** A remote document as delivered; `aceptada` covers both accepted statuses. */
  datatype Entrega = Entrega(aceptada: bool, updatedAt: int)

  datatype Nota = Nota(
    ventaTotal: int, total: nat, vence: int, updatedAt: int, sunatAceptado: bool, efectosAplicados: bool)

  /** Where a delivery is: idle, past its read, or committed to applying the effects. */
  datatype Fase = Libre | Leida(d: Entrega, yaAceptada: bool) | Comprometida

  datatype Mundo = Mundo(l: Ledger, nota: Nota, entregas: map<nat, Fase>)

  function FaseDe(m: Mundo, w: nat): Fase { if w in m.entregas then m.entregas[w] else Libre }

  function Poner(m: Mundo, w: nat, f: Fase): (r: Mundo)
    ensures r.l == m.l && r.nota == m.nota
    ensures forall x: nat :: FaseDe(r, x) == if x == w then f else FaseDe(m, x)
  {
    m.(entregas := m.entregas[w := f])
  }

  /** The read of applyDocument, with its timestamp guard. */
  function Leer(m: Mundo, w: nat, d: Entrega): Mundo {
    if FaseDe(m, w) != Libre || m.nota.updatedAt > d.updatedAt then m
    else Poner(m, w, Leida(d, m.nota.sunatAceptado))
  }

  /** The mirror transaction, and the decision taken on what was read before it. */
  function Reflejar(m: Mundo, w: nat): Mundo {
    var f := FaseDe(m, w);
    if !f.Leida? then m
    else
      Poner(m.(nota := m.nota.(updatedAt := f.d.updatedAt, sunatAceptado := f.d.aceptada)), w,
            if f.d.aceptada && !f.yaAceptada then Comprometida else Libre)
  }

  /** applyAcceptedEffects: under the row lock of the note, once. */
  function AplicarEfectos(m: Mundo, w: nat): Mundo {
    if FaseDe(m, w) != Comprometida then m
    else if m.nota.efectosAplicados then Poner(m, w, Libre)
    else
      Poner(m.(l := CargarDebito(m.l, m.nota.ventaTotal, m.nota.total, m.nota.vence),
               nota := m.nota.(efectosAplicados := true)), w, Libre)
  }

  /** The catch block of the outbox worker, wherever its attempt broke. */
  function Fallar(m: Mundo, w: nat, now: int): Mundo {
    Poner(m.(nota := m.nota.(updatedAt := now, sunatAceptado := false)), w, Libre)
  }

  datatype Evento =
    | Lectura(w: nat, d: Entrega)
    | Espejo(w: nat)
    | Efectos(w: nat)
    | Caida(w: nat)
    | FalloDeEmision(w: nat, now: int)
    | Otro(e: R.Evento)

  function Paso(m: Mundo, e: Evento): Mundo {
    match e
    case Lectura(w, d) => Leer(m, w, d)
    case Espejo(w) => Reflejar(m, w)
    case Efectos(w) => AplicarEfectos(m, w)
    case Caida(w) => Poner(m, w, Libre)
    case FalloDeEmision(w, now) => Fallar(m, w, now)
    case Otro(x) => m.(l := R.Paso(m.l, x))
  }

  function Correr(m: Mundo, es: seq<Evento>): Mundo {
    if |es| == 0 then m else Paso(Correr(m, es[..|es| - 1]), es[|es| - 1])
  }

  // ---------------------------------------------------------------- at most once

  predicate Aplica(m: Mundo, e: Evento) {
    e.Efectos? && FaseDe(m, e.w) == Comprometida && !m.nota.efectosAplicados
  }

  /** How many times the effects of the note reach the account along a run. */
  function Veces(m: Mundo, es: seq<Evento>): nat {
    if |es| == 0 then 0
    else Veces(m, es[..|es| - 1]) + (if Aplica(Correr(m, es[..|es| - 1]), es[|es| - 1]) then 1 else 0)
  }

  /** The transactions the account sees along a run. */
  function Historia(m: Mundo, es: seq<Evento>): seq<R.Evento> {
    if |es| == 0 then []
    else
      var u, e := es[..|es| - 1], es[|es| - 1];
      Historia(m, u) +
      (if e.Otro? then [e.e]
       else if Aplica(Correr(m, u), e) then [R.EvDebito(m.nota.ventaTotal, m.nota.total, m.nota.vence)] else [])
  }

  /** A step leaves the account alone, or is one of its own transactions. */
  lemma PasoIsLedgerStep(m: Mundo, e: Evento)
    ensures e.Otro? ==> Paso(m, e).l == R.Paso(m.l, e.e)
    ensures Aplica(m, e) ==> Paso(m, e).l == R.Paso(m.l, R.EvDebito(m.nota.ventaTotal, m.nota.total, m.nota.vence))
    ensures !e.Otro? && !Aplica(m, e) ==> Paso(m, e).l == m.l
  {
    hide CargarDebito;
  }

  function Datos(n: Nota): (int, nat, int) { (n.ventaTotal, n.total, n.vence) }

  lemma PasoKeepsDatos(m: Mundo, e: Evento)
    ensures Datos(Paso(m, e).nota) == Datos(m.nota)
    ensures Paso(m, e).nota.efectosAplicados == (m.nota.efectosAplicados || Aplica(m, e))
  {
  }

  /**
   However deliveries are duplicated, reordered, interleaved or cut, the account goes through an
   ordinary run of its own transactions in which this note appears once if its flag was raised and
   not at all otherwise.
   */
  lemma {:induction false} EffectsAtMostOnce(m: Mundo, es: seq<Evento>)
    requires !m.nota.efectosAplicados
    ensures Correr(m, es).l == R.Correr(m.l, Historia(m, es))
    ensures Veces(m, es) == if Correr(m, es).nota.efectosAplicados then 1 else 0
    ensures Datos(Correr(m, es).nota) == Datos(m.nota)
  {
    hide CargarDebito, R.Paso;
    if |es| == 0 {
    } else {
      var u, e := es[..|es| - 1], es[|es| - 1];
      EffectsAtMostOnce(m, u);
      PasoKeepsDatos(Correr(m, u), e);
      PasoIsLedgerStep(Correr(m, u), e);
      var h, h' := Historia(m, u), Historia(m, es);
      if e.Otro? || Aplica(Correr(m, u), e) {
        assert h'[..|h'| - 1] == h;
      } else {
        assert h' == h;
      }
    }
  }

  /** What one application does: the three totals of the account rise by the note's total. */
  lemma EffectsRaiseAccount(l: Ledger, ventaTotal: int, total: nat, vence: int)
    requires LedgerOk(l)
    ensures var r := CargarDebito(l, ventaTotal, total, vence);
            && LedgerOk(r) && r.cuenta.Some?
            && (l.cuenta.Some? ==>
                  && r.cuenta.value.totalVenta == l.cuenta.value.totalVenta + total
                  && r.cuenta.value.saldoInicial == l.cuenta.value.saldoInicial + total
                  && r.cuenta.value.saldoPendiente == l.cuenta.value.saldoPendiente + total
                  && Sum(r.cuotas, SaldoDe()) == Sum(l.cuotas, SaldoDe()) + total
                  && |r.cuotas| == |l.cuotas| + 1)
            && (l.cuenta.None? ==>
                  && r.cuenta.value.totalVenta == ventaTotal + total == r.cuenta.value.adelanto + r.cuenta.value.saldoInicial
                  && r.cuenta.value.saldoPendiente == total == Sum(r.cuotas, SaldoDe()))
  {
    DebitoKeepsLedger(l, ventaTotal, total, vence);
    if l.cuenta.Some? {
      InsertarSum(l.cuotas, NuevaCuota(l.cuotas, vence, total), SaldoDe());
    }
  }

  /** Instant and acceptance the note shows after a run: those of the last mirror, or of the last failure. */
  function Reflejada(m: Mundo, es: seq<Evento>): (int, bool) {
    if |es| == 0 then (m.nota.updatedAt, m.nota.sunatAceptado)
    else
      var u, e := es[..|es| - 1], es[|es| - 1];
      match e
      case Espejo(w) =>
        var f := FaseDe(Correr(m, u), w);
        if f.Leida? then (f.d.updatedAt, f.d.aceptada) else Reflejada(m, u)
      case FalloDeEmision(_, now) => (now, false)
      case _ => Reflejada(m, u)
  }

  /** Whatever interleaves, the note shows what the last mirror or failure wrote; reads and effects write neither. */
  lemma {:induction false} NoteShowsLastWrite(m: Mundo, es: seq<Evento>)
    ensures (Correr(m, es).nota.updatedAt, Correr(m, es).nota.sunatAceptado) == Reflejada(m, es)
  {
    if |es| == 0 {
    } else {
      NoteShowsLastWrite(m, es[..|es| - 1]);
    }
  }

  /** An undisturbed delivery ends idle, stale or not, applied or not. */
  lemma DeliveryEnds(m: Mundo, w: nat, d: Entrega)
    requires FaseDe(m, w) == Libre
    ensures var r := Entregar(m, w, d);
            && FaseDe(r, w) == Libre
            && (r.nota.updatedAt, r.nota.sunatAceptado)
               == if m.nota.updatedAt > d.updatedAt then (m.nota.updatedAt, m.nota.sunatAceptado) else (d.updatedAt, d.aceptada)
  {
    hide CargarDebito;
  }

  // ---------------------------------------------------------------- exactly once without failures

  predicate Falla(e: Evento) { e.Caida? || e.FalloDeEmision? }

  /** The effects are applied or some delivery is on its way to applying them. */
  ghost predicate EnCamino(m: Mundo) {
    m.nota.efectosAplicados || exists w: nat :: FaseDe(m, w) == Comprometida
  }

  /** Nobody believes the note was accepted before unless its effects are on their way. */
  ghost predicate CreenciaOk(m: Mundo) {
    && (m.nota.sunatAceptado ==> EnCamino(m))
    && (forall w: nat :: FaseDe(m, w).Leida? && FaseDe(m, w).yaAceptada ==> EnCamino(m))
  }

  lemma PasoKeepsEnCamino(m: Mundo, e: Evento)
    requires EnCamino(m) && !Falla(e)
    ensures EnCamino(Paso(m, e))
  {
    if !m.nota.efectosAplicados {
      var w: nat :| FaseDe(m, w) == Comprometida;
      assert Paso(m, e).nota.efectosAplicados || FaseDe(Paso(m, e), w) == Comprometida;
    }
  }

  lemma PasoKeepsCreencia(m: Mundo, e: Evento)
    requires CreenciaOk(m) && !Falla(e)
    ensures CreenciaOk(Paso(m, e))
    ensures e.Espejo? && FaseDe(m, e.w).Leida? && FaseDe(m, e.w).d.aceptada ==> EnCamino(Paso(m, e))
  {
    var r := Paso(m, e);
    if EnCamino(m) {
      PasoKeepsEnCamino(m, e);
    } else if e.Espejo? && FaseDe(m, e.w).Leida? && FaseDe(m, e.w).d.aceptada {
      assert FaseDe(r, e.w) == Comprometida;
    } else {
      forall w: nat | FaseDe(r, w).Leida? ensures !FaseDe(r, w).yaAceptada {
        assert FaseDe(m, w).Leida? ==> !FaseDe(m, w).yaAceptada;
      }
    }
  }

  lemma {:induction false} RunKeepsCreencia(m: Mundo, es: seq<Evento>)
    requires CreenciaOk(m) && forall i :: 0 <= i < |es| ==> !Falla(es[i])
    ensures CreenciaOk(Correr(m, es))
    ensures EnCamino(m) ==> EnCamino(Correr(m, es))
  {
    if |es| == 0 {
    } else {
      var u := es[..|es| - 1];
      RunKeepsCreencia(m, u);
      PasoKeepsCreencia(Correr(m, u), es[|es| - 1]);
      if EnCamino(m) { PasoKeepsEnCamino(Correr(m, u), es[|es| - 1]); }
    }
  }

  /** Two runs one after the other. */
  lemma {:induction false} CorrerConcat(m: Mundo, a: seq<Evento>, b: seq<Evento>)
    ensures Correr(m, a + b) == Correr(Correr(m, a), b)
  {
    if |b| == 0 {
      assert a + b == a;
    } else {
      assert (a + b)[..|a + b| - 1] == a + b[..|b| - 1];
      CorrerConcat(m, a, b[..|b| - 1]);
    }
  }

  /**
   If no delivery fails or stops half-way and one of them mirrors an accepted document, then once
   all deliveries are over the effects have been applied exactly once.
   */
  lemma EffectsExactlyOnce(m: Mundo, es: seq<Evento>, n: nat)
    requires !m.nota.sunatAceptado && !m.nota.efectosAplicados && m.entregas == map[]
    requires forall i :: 0 <= i < |es| ==> !Falla(es[i])
    requires n < |es| && es[n].Espejo?
    requires var f := FaseDe(Correr(m, es[..n]), es[n].w); f.Leida? && f.d.aceptada
    requires forall w: nat :: FaseDe(Correr(m, es), w) == Libre
    ensures Correr(m, es).nota.efectosAplicados && Veces(m, es) == 1
  {
    var a, b := es[..n + 1], es[n + 1..];
    assert es == a + b && a[..n] == es[..n];
    RunKeepsCreencia(m, es[..n]);
    PasoKeepsCreencia(Correr(m, es[..n]), es[n]);
    CorrerConcat(m, a, b);
    RunKeepsCreencia(Correr(m, a), b);
    EffectsAtMostOnce(m, es);
  }

  // ---------------------------------------------------------------- exactly when they are applied

  /** A delivery commits to applying the effects. */
  predicate Compromete(m: Mundo, e: Evento) {
    e.Espejo? && FaseDe(m, e.w).Leida? && FaseDe(m, e.w).d.aceptada && !FaseDe(m, e.w).yaAceptada
  }

  /** The only committed delivery fails or stops while the effects are still to come. */
  ghost predicate Pierde(m: Mundo, e: Evento) {
    && Falla(e) && !m.nota.efectosAplicados && FaseDe(m, e.w) == Comprometida
    && forall x: nat :: x != e.w ==> FaseDe(m, x) != Comprometida
  }

  lemma PasoEnCaminoIff(m: Mundo, e: Evento)
    ensures EnCamino(Paso(m, e)) <==> Compromete(m, e) || (EnCamino(m) && !Pierde(m, e))
  {
    var r := Paso(m, e);
    if Compromete(m, e) {
      assert FaseDe(r, e.w) == Comprometida;
    } else if !m.nota.efectosAplicados {
      if EnCamino(m) && !Pierde(m, e) {
        var w: nat :| FaseDe(m, w) == Comprometida && (Falla(e) ==> w != e.w);
        assert r.nota.efectosAplicados || FaseDe(r, w) == Comprometida;
      }
      if EnCamino(r) && !r.nota.efectosAplicados {
        var w: nat :| FaseDe(r, w) == Comprometida;
        assert FaseDe(m, w) == Comprometida;
      }
    }
  }

  /** Some delivery committed, and since then no failure met the only one that was committed. */
  ghost predicate SigueComprometida(m: Mundo, es: seq<Evento>) {
    |es| > 0 &&
    var u, e := es[..|es| - 1], es[|es| - 1];
    Compromete(Correr(m, u), e) || (SigueComprometida(m, u) && !Pierde(Correr(m, u), e))
  }

  /**
   Once all deliveries are over, the effects have been applied, once, exactly when some delivery
   committed to them and since then no failure met the only one still committed.
   */
  lemma AppliedIff(m: Mundo, es: seq<Evento>)
    requires !m.nota.efectosAplicados && m.entregas == map[]
    requires forall w: nat :: FaseDe(Correr(m, es), w) == Libre
    ensures Correr(m, es).nota.efectosAplicados <==> SigueComprometida(m, es)
    ensures Veces(m, es) == if SigueComprometida(m, es) then 1 else 0
  {
    hide Correr, SigueComprometida, Veces;
    RunEnCaminoIff(m, es);
    EffectsAtMostOnce(m, es);
  }

  lemma {:induction false} RunEnCaminoIff(m: Mundo, es: seq<Evento>)
    requires !m.nota.efectosAplicados && m.entregas == map[]
    ensures EnCamino(Correr(m, es)) <==> SigueComprometida(m, es)
  {
    if |es| == 0 {
    } else {
      hide Paso, EnCamino, Compromete, Pierde;
      RunEnCaminoIff(m, es[..|es| - 1]);
      PasoEnCaminoIff(Correr(m, es[..|es| - 1]), es[|es| - 1]);
    }
  }

  // ---------------------------------------------------------------- what a failure costs

  /** One delivery with nothing in between. */
  function Entregar(m: Mundo, w: nat, d: Entrega): Mundo {
    AplicarEfectos(Reflejar(Leer(m, w, d), w), w)
  }

  /** Exactly when an undisturbed delivery applies the effects of a note that has none yet. */
  lemma DeliveryAppliesIff(m: Mundo, w: nat, d: Entrega)
    requires FaseDe(m, w) == Libre && !m.nota.efectosAplicados
    ensures Entregar(m, w, d).nota.efectosAplicados <==>
              d.aceptada && m.nota.updatedAt <= d.updatedAt && !m.nota.sunatAceptado
  {
    var a := Leer(m, w, d);
    var b := Reflejar(a, w);
    assert FaseDe(a, w).Leida? <==> m.nota.updatedAt <= d.updatedAt;
    assert FaseDe(b, w) == Comprometida <==> m.nota.updatedAt <= d.updatedAt && d.aceptada && !m.nota.sunatAceptado;
  }

  /** The note is mirrored as accepted, its effects are not applied, and nobody will apply them. */
  ghost predicate Perdida(m: Mundo) {
    && m.nota.sunatAceptado && !m.nota.efectosAplicados
    && forall w: nat :: FaseDe(m, w) == Libre || (FaseDe(m, w).Leida? && FaseDe(m, w).yaAceptada && FaseDe(m, w).d.aceptada)
  }

  lemma CrashBeforeEffectsLosesThem(m: Mundo, w: nat)
    requires FaseDe(m, w) == Comprometida && m.nota.sunatAceptado && !m.nota.efectosAplicados
    requires forall x: nat :: x != w ==> FaseDe(m, x) == Libre
    ensures Perdida(Paso(m, Caida(w)))
  {
  }

  /**
   Once the delivery that mirrored the acceptance stops before the effects, no number of further
   accepted deliveries applies them.
   */
  lemma {:induction false} LostEffectsStayLost(m: Mundo, es: seq<Evento>)
    requires Perdida(m)
    requires forall i :: 0 <= i < |es| ==> !es[i].FalloDeEmision? && (es[i].Lectura? ==> es[i].d.aceptada)
    ensures Perdida(Correr(m, es)) && Veces(m, es) == 0
  {
    if |es| == 0 {
    } else {
      var u, e := es[..|es| - 1], es[|es| - 1];
      LostEffectsStayLost(m, u);
      var a, r := Correr(m, u), Correr(m, es);
      if e.Otro? {
        assert forall w: nat :: FaseDe(r, w) == FaseDe(a, w);
      } else {
        assert FaseDe(a, e.w) != Comprometida;
        forall w: nat ensures FaseDe(r, w) == Libre || (FaseDe(r, w).Leida? && FaseDe(r, w).yaAceptada && FaseDe(r, w).d.aceptada) {
          assert FaseDe(a, w) != Comprometida;
        }
      }
    }
  }

  /**
   A worker whose effects transaction fails writes its own clock over the mirror: the delivery of
   its retry applies the effects only if the remote document changed after that failure.
   */
  lemma RetryAfterFailureIff(m: Mundo, w: nat, now: int, d: Entrega)
    requires FaseDe(m, w) == Comprometida && !m.nota.efectosAplicados
    ensures Entregar(Paso(m, FalloDeEmision(w, now)), w, d).nota.efectosAplicados <==> d.aceptada && now <= d.updatedAt
  {
    DeliveryAppliesIff(Paso(m, FalloDeEmision(w, now)), w, d);
  }
}
