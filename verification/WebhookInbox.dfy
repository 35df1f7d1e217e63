/**
 The webhook inbox: an event is looked up, recorded under its id, applied, and un-recorded when
 applying it fails, so that the sender may deliver it again. Deliveries of one event run at the
 same time and may stop between any two of these awaited steps.
 */
module WebhookInbox {

  /** Where a delivery is: idle, past the lookup, or past the record and applying. */
  datatype Fase = Libre | Consultado(ev: nat) | Registrado(ev: nat)

  /** `filas` are the recorded event ids; `aplicados` counts the successful applications of each. */
  datatype Inbox = Inbox(filas: set<nat>, entregas: map<nat, Fase>, aplicados: map<nat, nat>)

  function FaseDe(m: Inbox, w: nat): Fase { if w in m.entregas then m.entregas[w] else Libre }

  function Poner(m: Inbox, w: nat, f: Fase): (r: Inbox)
    ensures r.filas == m.filas && r.aplicados == m.aplicados
    ensures forall x: nat :: FaseDe(r, x) == if x == w then f else FaseDe(m, x)
  {
    m.(entregas := m.entregas[w := f])
  }

  function Veces(m: Inbox, ev: nat): nat { if ev in m.aplicados then m.aplicados[ev] else 0 }

  datatype Evento = Consulta(w: nat, ev: nat) | Registro(w: nat) | Aplicacion(w: nat, ok: bool) | Caida(w: nat)

  function Paso(m: Inbox, e: Evento): Inbox {
    var f := FaseDe(m, e.w);
    match e
    case Consulta(w, ev) =>
      // an event already recorded is answered as a duplicate
      if f == Libre && ev !in m.filas then Poner(m, w, Consultado(ev)) else m
    case Registro(w) =>
      // the unique id refuses a second record, and that delivery fails without undoing the first
      if !f.Consultado? then m
      else if f.ev in m.filas then Poner(m, w, Libre)
      else Poner(m.(filas := m.filas + {f.ev}), w, Registrado(f.ev))
    case Aplicacion(w, ok) =>
      if !f.Registrado? then m
      else if ok then Poner(m.(aplicados := m.aplicados[f.ev := Veces(m, f.ev) + 1]), w, Libre)
      else Poner(m.(filas := m.filas - {f.ev}), w, Libre)
    case Caida(w) => Poner(m, w, Libre)
  }

  function Correr(m: Inbox, es: seq<Evento>): Inbox {
    if |es| == 0 then m else Paso(Correr(m, es[..|es| - 1]), es[|es| - 1])
  }

  const INICIO: Inbox := Inbox({}, map[], map[])

  ghost predicate InboxOk(m: Inbox) {
    && (forall w: nat :: FaseDe(m, w).Registrado? ==> FaseDe(m, w).ev in m.filas && Veces(m, FaseDe(m, w).ev) == 0)
    && (forall w: nat, x: nat :: FaseDe(m, w).Registrado? && FaseDe(m, w) == FaseDe(m, x) ==> w == x)
    && (forall ev: nat :: Veces(m, ev) <= 1 && (Veces(m, ev) == 1 ==> ev in m.filas))
  }

  lemma PasoKeepsInbox(m: Inbox, e: Evento)
    requires InboxOk(m)
    ensures InboxOk(Paso(m, e))
  {
    var r := Paso(m, e);
    forall w: nat | FaseDe(r, w).Registrado? ensures FaseDe(r, w).ev in r.filas && Veces(r, FaseDe(r, w).ev) == 0 {
      if w != e.w { assert FaseDe(r, w) == FaseDe(m, w); }
    }
    forall w: nat, x: nat | FaseDe(r, w).Registrado? && FaseDe(r, w) == FaseDe(r, x) ensures w == x {
      if w != e.w { assert FaseDe(r, w) == FaseDe(m, w); }
      if x != e.w { assert FaseDe(r, x) == FaseDe(m, x); }
    }
    var f := FaseDe(m, e.w);
    assert f.Registrado? ==> f.ev in m.filas && Veces(m, f.ev) == 0;
    forall ev: nat ensures Veces(r, ev) <= 1 && (Veces(r, ev) == 1 ==> ev in r.filas) {
      assert Veces(m, ev) <= 1;
    }
  }

  lemma {:induction false} RunKeepsInbox(m: Inbox, es: seq<Evento>)
    requires InboxOk(m)
    ensures InboxOk(Correr(m, es))
  {
    if |es| == 0 {
    } else {
      RunKeepsInbox(m, es[..|es| - 1]);
      PasoKeepsInbox(Correr(m, es[..|es| - 1]), es[|es| - 1]);
    }
  }

  /** However deliveries are repeated, overlapped, failed or cut, an event is applied once at most. */
  lemma AppliedAtMostOnce(es: seq<Evento>, ev: nat)
    ensures Veces(Correr(INICIO, es), ev) <= 1
  {
    RunKeepsInbox(INICIO, es);
  }

  // ---------------------------------------------------------------- lost events

  /** Recorded, not applied, and nobody is applying it. */
  ghost predicate Perdido(m: Inbox, ev: nat) {
    ev in m.filas && Veces(m, ev) == 0 && forall w: nat :: FaseDe(m, w) != Registrado(ev)
  }

  /** A delivery that recorded ev stops before it is done applying it. */
  predicate Pierde(m: Inbox, e: Evento, ev: nat) { e.Caida? && FaseDe(m, e.w) == Registrado(ev) }

  lemma PasoLosesIff(m: Inbox, e: Evento, ev: nat)
    requires InboxOk(m)
    ensures Perdido(Paso(m, e), ev) <==> Perdido(m, ev) || Pierde(m, e, ev)
  {
    var r := Paso(m, e);
    if Perdido(m, ev) {
      forall w: nat ensures FaseDe(r, w) != Registrado(ev) { assert FaseDe(m, w) != Registrado(ev); }
    } else if Pierde(m, e, ev) {
      forall w: nat ensures FaseDe(r, w) != Registrado(ev) {
        if w != e.w { assert FaseDe(r, w) == FaseDe(m, w); }
      }
    } else if ev in m.filas && Veces(m, ev) == 0 {
      var w: nat :| FaseDe(m, w) == Registrado(ev);
      assert FaseDe(r, w) == Registrado(ev) || Veces(r, ev) != 0 || ev !in r.filas;
    } else if ev in r.filas && Veces(r, ev) == 0 {
      assert FaseDe(r, e.w) == Registrado(ev);
    }
  }

  ghost predicate SePierde(es: seq<Evento>, ev: nat) {
    exists i :: 0 <= i < |es| && Pierde(Correr(INICIO, es[..i]), es[i], ev)
  }

  lemma SePierdeSnoc(es: seq<Evento>, ev: nat)
    requires |es| > 0
    ensures var u := es[..|es| - 1];
            SePierde(es, ev) <==> SePierde(u, ev) || Pierde(Correr(INICIO, u), es[|es| - 1], ev)
  {
    hide Correr, Pierde;
    var n, u := |es| - 1, es[..|es| - 1];
    assert forall i :: 0 <= i <= n ==> u[..i] == es[..i];
    assert u[..n] == u;
    if SePierde(u, ev) {
      var i :| 0 <= i < n && Pierde(Correr(INICIO, u[..i]), u[i], ev);
      assert Pierde(Correr(INICIO, es[..i]), es[i], ev);
    }
    if SePierde(es, ev) {
      var i :| 0 <= i < |es| && Pierde(Correr(INICIO, es[..i]), es[i], ev);
      if i < n { assert Pierde(Correr(INICIO, u[..i]), u[i], ev); }
    }
  }

  /** Over any run an event is lost exactly when some delivery that had recorded it stopped half-way. */
  lemma {:induction false} LostIff(es: seq<Evento>, ev: nat)
    ensures Perdido(Correr(INICIO, es), ev) <==> SePierde(es, ev)
  {
    if |es| == 0 {
    } else {
      hide Paso, SePierde, Perdido;
      var u := es[..|es| - 1];
      LostIff(u, ev);
      RunKeepsInbox(INICIO, u);
      PasoLosesIff(Correr(INICIO, u), es[|es| - 1], ev);
      SePierdeSnoc(es, ev);
    }
  }

  /** One delivery with nothing in between, applied successfully if it gets that far. */
  function Entregar(m: Inbox, w: nat, ev: nat): Inbox {
    Paso(Paso(Paso(m, Consulta(w, ev)), Registro(w)), Aplicacion(w, true))
  }

  /**
   Once all deliveries are over, the next delivery of an event leaves it applied once exactly when no
   earlier one stopped while applying it; then it is recorded exactly when it was applied.
   */
  lemma RedeliveryAppliesOnce(es: seq<Evento>, w: nat, ev: nat)
    requires forall x: nat :: FaseDe(Correr(INICIO, es), x) == Libre
    ensures Veces(Entregar(Correr(INICIO, es), w, ev), ev) == 1 <==> !SePierde(es, ev)
    ensures (ev in Correr(INICIO, es).filas <==> Veces(Correr(INICIO, es), ev) == 1) <==> !SePierde(es, ev)
  {
    hide Correr, SePierde;
    var m := Correr(INICIO, es);
    RunKeepsInbox(INICIO, es);
    LostIff(es, ev);
    var a := Paso(m, Consulta(w, ev));
    if ev !in m.filas {
      assert FaseDe(a, w) == Consultado(ev);
      assert FaseDe(Paso(a, Registro(w)), w) == Registrado(ev);
    } else {
      assert a == m;
    }
  }

  lemma CrashLosesEvent(es: seq<Evento>, w: nat)
    requires FaseDe(Correr(INICIO, es), w).Registrado?
    ensures Perdido(Paso(Correr(INICIO, es), Caida(w)), FaseDe(Correr(INICIO, es), w).ev)
  {
    RunKeepsInbox(INICIO, es);
    PasoLosesIff(Correr(INICIO, es), Caida(w), FaseDe(Correr(INICIO, es), w).ev);
  }

  /** A delivery that stops between the record and the end of the application loses the event: every later one is a duplicate. */
  lemma {:induction false} LostEventIsNeverApplied(m: Inbox, es: seq<Evento>, ev: nat)
    requires Perdido(m, ev)
    ensures Perdido(Correr(m, es), ev)
  {
    if |es| == 0 {
    } else {
      LostEventIsNeverApplied(m, es[..|es| - 1], ev);
      var a, r := Correr(m, es[..|es| - 1]), Correr(m, es);
      forall w: nat ensures FaseDe(r, w) != Registrado(ev) { assert FaseDe(a, w) != Registrado(ev); }
    }
  }
}
