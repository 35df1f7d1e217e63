/**
 The void (baja) of an issued sale: request, outbox failure, remote answer and retry, ending
 either in the full commercial reversal or in the sale and account as they were.

 Requests, workers, webhooks, polls and retries are processes that interleave freely: each reads,
 later writes, and later still runs the reversal or gives the account its state back. Between any
 two of these steps other processes move, the account has its own transactions, credit notes are
 accepted, and a process may stop.
 */
module VoidSaga {
  import opened Sums
  import opened Wrappers
  import opened CashRegister
  import opened Receivable
  import opened ReceivableLaws
  import opened ReceivableStates
  import BillingOutbox
  import R = ReceivableRuns

  datatype VentaEstado = Completada | NcEmitida | VentaAnulada

  datatype BajaEstado =
    NoAplica | PendienteEnvio | Enviando | PendienteCdr | Aceptado | Observado | Rechazado
    | ErrorTransitorio | ErrorDefinitivo

  datatype Respuesta = PENDING | SUBMITTED | PROCESSING | ACCEPTED | REJECTED | FAILED

  /** A remote void request as delivered by the outbox call, a webhook, a poll or a retry. */
  datatype Entrega = Entrega(id: nat, estado: Respuesta, updatedAt: int)

  datatype Detalle = Detalle(variante: nat, cantidad: int)

  datatype JobEstado = JobPending | JobProcessing | JobRetry | JobDone | JobDead

  datatype Job = Job(estado: JobEstado, attempts: nat)

  datatype Venta = Venta(
    estado: VentaEstado, baja: BajaEstado, solicitud: Option<nat>, bajaAt: Option<int>, secuencia: nat,
    conSucursal: bool)

  datatype Tablas = Tablas(l: Ledger, venta: Venta, detalles: seq<Detalle>, stock: map<nat, int>, job: Option<Job>)

  /** Motive 06, motive 07 and the motives that return nothing. */
  datatype Motivo = DevolucionTotal | DevolucionParcial | SinDevolucion

  function EstadoBaja(r: Respuesta): BajaEstado {
    match r
    case PENDING => PendienteEnvio
    case SUBMITTED => PendienteCdr
    case PROCESSING => PendienteCdr
    case ACCEPTED => Aceptado
    case REJECTED => Rechazado
    case FAILED => ErrorDefinitivo
  }

  predicate BajaEnCurso(b: BajaEstado) {
    b == PendienteEnvio || b == Enviando || b == PendienteCdr || b == Aceptado || b == Observado
  }

  /** The checks of a request on the sale as read; `apta` stands for those on company, document and reason. */
  predicate PuedePedir(v: Venta, apta: bool) {
    v.estado == Completada && apta && v.solicitud.None? && !BajaEnCurso(v.baja)
  }

  function EscribirPedido(t: Tablas, now: int): Tablas {
    t.(venta := t.venta.(baja := PendienteEnvio, solicitud := None, bajaAt := Some(now)),
       l := PedirBaja(t.l),
       job := Some(Job(JobPending, 0)))
  }

  predicate PuedeReintentar(v: Venta, fechaRecuperable: bool) {
    v.baja == ErrorDefinitivo || (v.baja == Rechazado && fechaRecuperable)
  }

  /** retry: before Billing ever answered the job is armed again, afterwards only the sequence is written. */
  function EscribirReintento(t: Tablas, armar: bool, secuencia: nat, now: int): Tablas {
    if !armar then t.(venta := t.venta.(secuencia := secuencia))
    else if t.job.None? then t
    else t.(job := Some(Job(JobPending, 0)),
            venta := t.venta.(secuencia := secuencia, bajaAt := Some(now), baja := PendienteEnvio),
            l := PedirBaja(t.l))
  }

  predicate Atrasada(v: Venta, d: Entrega) { v.bajaAt.Some? && v.bajaAt.value > d.updatedAt }

  function EscribirEspejo(t: Tablas, d: Entrega): Tablas {
    t.(venta := t.venta.(solicitud := Some(d.id), bajaAt := Some(d.updatedAt), baja := EstadoBaja(d.estado)))
  }

  function Existencia(stock: map<nat, int>, v: nat): int { if v in stock then stock[v] else 0 }

  /** changeStock: add a delta to one variant. */
  function CambiarStock(stock: map<nat, int>, v: nat, delta: int): map<nat, int> {
    stock[v := Existencia(stock, v) + delta]
  }

  function Reponer(stock: map<nat, int>, ds: seq<Detalle>): map<nat, int> {
    if |ds| == 0 then stock
    else CambiarStock(Reponer(stock, ds[..|ds| - 1]), ds[|ds| - 1].variante, ds[|ds| - 1].cantidad)
  }

  /** What registering the sale took from stock. */
  function Despachar(stock: map<nat, int>, ds: seq<Detalle>): map<nat, int> {
    if |ds| == 0 then stock
    else CambiarStock(Despachar(stock, ds[..|ds| - 1]), ds[|ds| - 1].variante, -ds[|ds| - 1].cantidad)
  }

  function Finalizar(t: Tablas): Tablas {
    if t.venta.estado == VentaAnulada then t
    else t.(l := Revertir(t.l),
            stock := if t.venta.conSucursal then Reponer(t.stock, t.detalles) else t.stock,
            venta := t.venta.(estado := VentaAnulada))
  }

  /** The transaction of handleOutboxFailure. */
  function EscribirFallo(t: Tablas, dead: bool, now: int): Tablas {
    if t.job.None? then t
    else t.(job := Some(t.job.value.(estado := if dead then JobDead else JobRetry)),
            venta := t.venta.(baja := if dead then ErrorDefinitivo else ErrorTransitorio, bajaAt := Some(now)))
  }

  /** The conditional claim of the worker. */
  function Reclamar(t: Tablas): Tablas {
    if t.job.Some? && (t.job.value.estado == JobPending || t.job.value.estado == JobRetry)
    then t.(job := Some(Job(JobProcessing, t.job.value.attempts + 1))) else t
  }

  function Terminar(t: Tablas): Tablas {
    if t.job.Some? then t.(job := Some(t.job.value.(estado := JobDone))) else t
  }

  /** The effects of one accepted credit note on stock, account and sale, under the lock of its row. */
  function AceptarNota(t: Tablas, lineas: seq<Detalle>, total: nat, motivo: Motivo): Tablas {
    t.(stock := if motivo.SinDevolucion? || !t.venta.conSucursal then t.stock else Reponer(t.stock, lineas),
       l := if motivo.SinDevolucion? then t.l else AcreditarNota(t.l, total, motivo.DevolucionTotal?),
       venta := t.venta.(estado := if motivo.DevolucionTotal? then VentaAnulada else NcEmitida))
  }

  // ---------------------------------------------------------------- the protocol

  /** Where a process is between two of its awaits. */
  datatype Fase =
    | Libre
    | Pidiendo
    | Reintentando(armar: bool, secuencia: nat)
    | Leida(d: Entrega)
    | PorFinalizar
    | PorRestaurar
    | Restaurando(estado: CuentaEstado)

  datatype Saga = Saga(t: Tablas, fases: map<nat, Fase>)

  function FaseDe(s: Saga, w: nat): Fase { if w in s.fases then s.fases[w] else Libre }

  function Poner(s: Saga, w: nat, f: Fase): (r: Saga)
    ensures r.t == s.t
    ensures forall x: nat :: FaseDe(r, x) == if x == w then f else FaseDe(s, x)
  {
    s.(fases := s.fases[w := f])
  }

  datatype Evento =
    | Pedir(w: nat, apta: bool)
    | EscribePedido(w: nat, now: int)
    | Reintentar(w: nat, fechaRecuperable: bool)
    | EscribeReintento(w: nat, now: int)
    | Reclamo
    | Termino
    | Leer(w: nat, d: Entrega)
    | Reflejar(w: nat)
    | Finaliza(w: nat)
    | LeerCuenta(w: nat)
    | EscribeEstado(w: nat)
    | Falla(w: nat, retryable: bool, attempts: nat, now: int)
    | Caida(w: nat)
    | Nota(lineas: seq<Detalle>, total: nat, motivo: Motivo)
    | Otro(e: R.Evento)

  /** After the mirror: the effect that is still to come. */
  function Siguiente(d: Entrega): Fase {
    if d.estado == ACCEPTED then PorFinalizar
    else if d.estado == REJECTED || d.estado == FAILED then PorRestaurar
    else Libre
  }

  predicate Muerto(retryable: bool, attempts: nat) { !retryable || attempts >= BillingOutbox.MAX_ATTEMPTS }

  /** Transactions of the account that are not the void's own nor a credit note's. */
  predicate Ajeno(e: R.Evento) {
    !e.EvPedirBaja? && !e.EvRestaurar? && !e.EvFijarEstado? && !e.EvRevertir? && !R.EsNota(e)
  }

  function Paso(s: Saga, e: Evento): Saga {
    match e
    case Pedir(w, apta) => if FaseDe(s, w) == Libre && PuedePedir(s.t.venta, apta) then Poner(s, w, Pidiendo) else s
    case EscribePedido(w, now) =>
      if FaseDe(s, w) == Pidiendo then Poner(s.(t := EscribirPedido(s.t, now)), w, Libre) else s
    case Reintentar(w, fecha) =>
      if FaseDe(s, w) == Libre && PuedeReintentar(s.t.venta, fecha)
      then Poner(s, w, Reintentando(s.t.venta.solicitud.None?, s.t.venta.secuencia + 1)) else s
    case EscribeReintento(w, now) =>
      var f := FaseDe(s, w);
      if f.Reintentando? then Poner(s.(t := EscribirReintento(s.t, f.armar, f.secuencia, now)), w, Libre) else s
    case Reclamo => s.(t := Reclamar(s.t))
    case Termino => s.(t := Terminar(s.t))
    case Leer(w, d) => if FaseDe(s, w) == Libre && !Atrasada(s.t.venta, d) then Poner(s, w, Leida(d)) else s
    case Reflejar(w) =>
      var f := FaseDe(s, w);
      if f.Leida? then Poner(s.(t := EscribirEspejo(s.t, f.d)), w, Siguiente(f.d)) else s
    case Finaliza(w) => if FaseDe(s, w) == PorFinalizar then Poner(s.(t := Finalizar(s.t)), w, Libre) else s
    case LeerCuenta(w) =>
      if FaseDe(s, w) != PorRestaurar then s
      else if s.t.l.cuenta.None? || s.t.l.cuenta.value.estado != AnulacionPendiente then Poner(s, w, Libre)
      else Poner(s, w, Restaurando(EstadoRestaurado(s.t.l.cuenta.value)))
    case EscribeEstado(w) =>
      var f := FaseDe(s, w);
      if f.Restaurando? then Poner(s.(t := s.t.(l := R.FijarEstado(s.t.l, f.estado))), w, Libre) else s
    case Falla(w, retryable, attempts, now) =>
      Poner(s.(t := EscribirFallo(s.t, Muerto(retryable, attempts), now)), w,
            if Muerto(retryable, attempts) && s.t.job.Some? then PorRestaurar else Libre)
    case Caida(w) => Poner(s, w, Libre)
    case Nota(lineas, total, motivo) => s.(t := AceptarNota(s.t, lineas, total, motivo))
    case Otro(x) => if Ajeno(x) then s.(t := s.t.(l := R.Paso(s.t.l, x))) else s
  }

  function Correr(s: Saga, es: seq<Evento>): Saga {
    if |es| == 0 then s else Paso(Correr(s, es[..|es| - 1]), es[|es| - 1])
  }

  function Contar(s: Saga, es: seq<Evento>, que: (Saga, Evento) -> bool): nat {
    if |es| == 0 then 0
    else Contar(s, es[..|es| - 1], que) + (if que(Correr(s, es[..|es| - 1]), es[|es| - 1]) then 1 else 0)
  }

  predicate YaAnulada(s: Saga) { s.t.venta.estado == VentaAnulada }

  /** This step is the commercial reversal. */
  predicate EsReversion(s: Saga, e: Evento) { e.Finaliza? && FaseDe(s, e.w) == PorFinalizar && !YaAnulada(s) }

  predicate EsDevolucionTotal(s: Saga, e: Evento) { e.Nota? && e.motivo.DevolucionTotal? && !YaAnulada(s) }

  /** A note accepted after the annulment writes another status over it. */
  predicate EsReapertura(s: Saga, e: Evento) { e.Nota? && !e.motivo.DevolucionTotal? && YaAnulada(s) }

  // ---------------------------------------------------------------- the ledger under the saga

  /** The ledger transaction a step carries out. */
  function EnLibro(s: Saga, e: Evento): Option<R.Evento> {
    match e
    case EscribePedido(w, _) => if FaseDe(s, w) == Pidiendo then Some(R.EvPedirBaja) else None
    case EscribeReintento(w, _) =>
      if FaseDe(s, w).Reintentando? && FaseDe(s, w).armar && s.t.job.Some? then Some(R.EvPedirBaja) else None
    case Finaliza(_) => if EsReversion(s, e) then Some(R.EvRevertir) else None
    case EscribeEstado(w) => if FaseDe(s, w).Restaurando? then Some(R.EvFijarEstado(FaseDe(s, w).estado)) else None
    case Nota(_, total, motivo) =>
      (match motivo
       case DevolucionTotal => Some(R.EvNotaTotal(total))
       case DevolucionParcial => Some(R.EvNotaParcial(total))
       case SinDevolucion => None)
    case Otro(x) => if Ajeno(x) then Some(x) else None
    case _ => None
  }

  /** The transactions the account sees along a run. */
  function Historia(s: Saga, es: seq<Evento>): seq<R.Evento> {
    if |es| == 0 then []
    else
      var x := EnLibro(Correr(s, es[..|es| - 1]), es[|es| - 1]);
      Historia(s, es[..|es| - 1]) + (if x.Some? then [x.value] else [])
  }

  lemma PasoIsLedgerStep(s: Saga, e: Evento)
    ensures Paso(s, e).t.l == match EnLibro(s, e) case Some(x) => R.Paso(s.t.l, x) case None => s.t.l
  {
    hide Reponer, Revertir, AcreditarNota;
  }

  /**
   However the processes of a void interleave with each other, with credit notes and with the
   account's own transactions, the account goes through an ordinary run of its transactions.
   */
  lemma {:induction false} SagaIsLedgerRun(s: Saga, es: seq<Evento>)
    ensures Correr(s, es).t.l == R.Correr(s.t.l, Historia(s, es))
  {
    hide Paso, R.Paso, EnLibro;
    if |es| == 0 {
    } else {
      var u, e := es[..|es| - 1], es[|es| - 1];
      SagaIsLedgerRun(s, u);
      PasoIsLedgerStep(Correr(s, u), e);
      var h, h' := Historia(s, u), Historia(s, es);
      if EnLibro(Correr(s, u), e).Some? {
        assert h'[..|h'| - 1] == h;
      } else {
        assert h' == h;
      }
    }
  }

  lemma SagaKeepsLedger(s: Saga, es: seq<Evento>)
    requires LedgerOk(s.t.l) && R.Cubiertas(s.t.l, Historia(s, es))
    ensures LedgerOk(Correr(s, es).t.l)
  {
    SagaIsLedgerRun(s, es);
    R.RunKeepsLedger(s.t.l, Historia(s, es));
  }

  // ---------------------------------------------------------------- how often a sale is reversed

  function Uno(b: bool): nat { if b then 1 else 0 }

  lemma PasoCounts(s: Saga, e: Evento)
    ensures Uno(EsReversion(s, e)) + Uno(EsDevolucionTotal(s, e)) + Uno(YaAnulada(s))
            == Uno(YaAnulada(Paso(s, e))) + Uno(EsReapertura(s, e))
    ensures Paso(s, e).t.detalles == s.t.detalles && Paso(s, e).t.venta.conSucursal == s.t.venta.conSucursal
  {
    hide Reponer, Revertir, AcreditarNota, R.Paso, PedirBaja;
  }

  /**
   Over any run, reversals and total returns are together the number of times the sale became
   annulled: once if it ends annulled, and once more for each later note that reopened it.
   */
  lemma {:induction false} ReversalsAreCounted(s: Saga, es: seq<Evento>)
    ensures Contar(s, es, EsReversion) + Contar(s, es, EsDevolucionTotal) + Uno(YaAnulada(s))
            == Uno(YaAnulada(Correr(s, es))) + Contar(s, es, EsReapertura)
    ensures Correr(s, es).t.detalles == s.t.detalles && Correr(s, es).t.venta.conSucursal == s.t.venta.conSucursal
  {
    hide Paso, EsReversion, EsDevolucionTotal, EsReapertura, YaAnulada;
    if |es| == 0 {
    } else {
      ReversalsAreCounted(s, es[..|es| - 1]);
      PasoCounts(Correr(s, es[..|es| - 1]), es[|es| - 1]);
    }
  }

  /** A sale that no credit note reopens is reversed at most once, exactly when it ends annulled by its void. */
  lemma ReversedAtMostOnce(s: Saga, es: seq<Evento>)
    requires !YaAnulada(s) && Contar(s, es, EsReapertura) == 0
    ensures Contar(s, es, EsReversion) <= 1
    ensures Contar(s, es, EsReversion) == 1 <==> YaAnulada(Correr(s, es)) && Contar(s, es, EsDevolucionTotal) == 0
  {
    ReversalsAreCounted(s, es);
  }

  // ---------------------------------------------------------------- stock

  function Cantidad(v: nat): Detalle -> int { (d: Detalle) => if d.variante == v then d.cantidad else 0 }

  function Vendido(t: Tablas, v: nat): int { Sum(t.detalles, Cantidad(v)) }

  lemma {:induction false} ReponerAdds(stock: map<nat, int>, ds: seq<Detalle>, v: nat)
    ensures Existencia(Reponer(stock, ds), v) == Existencia(stock, v) + Sum(ds, Cantidad(v))
  {
    if |ds| == 0 {
    } else {
      ReponerAdds(stock, ds[..|ds| - 1], v);
    }
  }

  lemma {:induction false} DespacharTakes(stock: map<nat, int>, ds: seq<Detalle>, v: nat)
    ensures Existencia(Despachar(stock, ds), v) == Existencia(stock, v) - Sum(ds, Cantidad(v))
  {
    if |ds| == 0 {
    } else {
      DespacharTakes(stock, ds[..|ds| - 1], v);
    }
  }

  /** What one step gives back of variant v through a credit note. */
  function Devuelve(e: Evento, v: nat): int {
    if e.Nota? && !e.motivo.SinDevolucion? then Sum(e.lineas, Cantidad(v)) else 0
  }

  function Devuelto(es: seq<Evento>, v: nat): int {
    if |es| == 0 then 0 else Devuelto(es[..|es| - 1], v) + Devuelve(es[|es| - 1], v)
  }

  lemma PasoMovesStock(s: Saga, e: Evento, v: nat)
    requires s.t.venta.conSucursal
    ensures Existencia(Paso(s, e).t.stock, v)
            == Existencia(s.t.stock, v) + Devuelve(e, v) + (if EsReversion(s, e) then Vendido(s.t, v) else 0)
  {
    hide Reponer, Revertir, AcreditarNota, R.Paso, PedirBaja, Sum;
    ReponerAdds(s.t.stock, s.t.detalles, v);
    if e.Nota? { ReponerAdds(s.t.stock, e.lineas, v); }
  }

  /** The stock account: what credit notes brought back, and the whole sale for each reversal. */
  lemma {:induction false} StockIsAccounted(s: Saga, es: seq<Evento>, v: nat)
    requires s.t.venta.conSucursal
    ensures Existencia(Correr(s, es).t.stock, v)
            == Existencia(s.t.stock, v) + Devuelto(es, v) + Contar(s, es, EsReversion) * Vendido(s.t, v)
  {
    hide Paso, EsReversion, Devuelve, Sum, Existencia;
    if |es| == 0 {
    } else {
      var u := es[..|es| - 1];
      StockIsAccounted(s, u, v);
      ReversalsAreCounted(s, u);
      PasoMovesStock(Correr(s, u), es[|es| - 1], v);
      assert Vendido(Correr(s, u).t, v) == Vendido(s.t, v);
    }
  }

  /**
   Stock comes back as sold exactly when the sale was reversed once and no note returned any of the
   variant, or was not reversed and the notes returned all of it. A note accepted while the void is
   pending therefore returns its quantity a second time with the reversal.
   */
  lemma StockReturnedIsSoldIff(s: Saga, es: seq<Evento>, v: nat)
    requires s.t.venta.conSucursal && Vendido(s.t, v) > 0 && 0 <= Devuelto(es, v) <= Vendido(s.t, v)
    ensures Existencia(Correr(s, es).t.stock, v) == Existencia(s.t.stock, v) + Vendido(s.t, v) <==>
              || (Contar(s, es, EsReversion) == 1 && Devuelto(es, v) == 0)
              || (Contar(s, es, EsReversion) == 0 && Devuelto(es, v) == Vendido(s.t, v))
  {
    hide Contar, Correr, Existencia, Vendido, Devuelto;
    StockIsAccounted(s, es, v);
    OneWholeOrNone(Contar(s, es, EsReversion), Vendido(s.t, v), Devuelto(es, v));
  }

  lemma OneWholeOrNone(n: nat, x: int, d: int)
    requires x > 0 && 0 <= d <= x
    ensures d + n * x == x <==> (n == 1 && d == 0) || (n == 0 && d == x)
  {
    if n >= 2 { assert n * x == x + x + (n - 2) * x && (n - 2) * x >= 0; }
  }

  /** Without credit notes a reversed sale has put back exactly what registering it took. */
  lemma ReversalReturnsStock(antes: map<nat, int>, s: Saga, es: seq<Evento>, v: nat)
    requires s.t.venta.conSucursal && !YaAnulada(s) && s.t.stock == Despachar(antes, s.t.detalles)
    requires forall i :: 0 <= i < |es| ==> !es[i].Nota?
    ensures Existencia(Correr(s, es).t.stock, v)
            == if YaAnulada(Correr(s, es)) then Existencia(antes, v) else Existencia(Despachar(antes, s.t.detalles), v)
  {
    hide Contar, Correr, Despachar, Devuelto, Existencia, Sum;
    DespacharTakes(antes, s.t.detalles, v);
    WithoutNotes(s, es, v);
    ReversedAtMostOnce(s, es);
    StockIsAccounted(s, es, v);
  }

  lemma {:induction false} WithoutNotes(s: Saga, es: seq<Evento>, v: nat)
    requires forall i :: 0 <= i < |es| ==> !es[i].Nota?
    ensures Contar(s, es, EsReapertura) == 0 && Contar(s, es, EsDevolucionTotal) == 0 && Devuelto(es, v) == 0
  {
    if |es| == 0 {
    } else {
      WithoutNotes(s, es[..|es| - 1], v);
    }
  }

  // ---------------------------------------------------------------- one process, undisturbed

  /** apply with nothing in between. */
  function AplicarBaja(t: Tablas, d: Entrega): Tablas {
    if Atrasada(t.venta, d) then t
    else
      var m := EscribirEspejo(t, d);
      match Siguiente(d)
      case PorFinalizar => Finalizar(m)
      case PorRestaurar => m.(l := Restaurar(m.l))
      case _ => m
  }

  /** The steps of one delivery in a row; those of another branch do nothing. */
  function Entregar(s: Saga, w: nat, d: Entrega): Saga {
    Paso(Paso(Paso(Paso(Paso(s, Leer(w, d)), Reflejar(w)), Finaliza(w)), LeerCuenta(w)), EscribeEstado(w))
  }

  /** The first two steps: nothing for an old delivery, otherwise the mirror and what follows it. */
  lemma DeliveryMirrors(s: Saga, w: nat, d: Entrega)
    requires FaseDe(s, w) == Libre
    ensures var b := Paso(Paso(s, Leer(w, d)), Reflejar(w));
            if Atrasada(s.t.venta, d) then b.t == s.t && FaseDe(b, w) == Libre
            else b.t == EscribirEspejo(s.t, d) && FaseDe(b, w) == Siguiente(d)
  {
  }

  /** The other three: the reversal, the restore or nothing. */
  lemma DeliveryEnds(b: Saga, w: nat)
    requires FaseDe(b, w) in {PorFinalizar, PorRestaurar, Libre}
    ensures var r := Paso(Paso(Paso(b, Finaliza(w)), LeerCuenta(w)), EscribeEstado(w));
            && FaseDe(r, w) == Libre
            && r.t == match FaseDe(b, w)
                      case PorFinalizar => Finalizar(b.t)
                      case PorRestaurar => b.t.(l := Restaurar(b.t.l))
                      case _ => b.t
  {
    hide Finalizar;
  }

  lemma DeliveryIsAplicarBaja(s: Saga, w: nat, d: Entrega)
    requires FaseDe(s, w) == Libre
    ensures Entregar(s, w, d).t == AplicarBaja(s.t, d) && FaseDe(Entregar(s, w, d), w) == Libre
  {
    hide Paso, Finalizar, Restaurar, EscribirEspejo;
    DeliveryMirrors(s, w, d);
    DeliveryEnds(Paso(Paso(s, Leer(w, d)), Reflejar(w)), w);
  }

  /** request with nothing in between. */
  function Solicitar(t: Tablas, apta: bool, now: int): Outcome<Tablas> {
    if PuedePedir(t.venta, apta) then Done(EscribirPedido(t, now)) else Refused(BadRequest)
  }

  lemma RequestIsSolicitar(s: Saga, w: nat, apta: bool, now: int)
    requires FaseDe(s, w) == Libre
    ensures Paso(Paso(s, Pedir(w, apta)), EscribePedido(w, now)).t == Solicitar(s.t, apta, now).After(s.t)
    ensures FaseDe(Paso(Paso(s, Pedir(w, apta)), EscribePedido(w, now)), w) == Libre
  {
  }

  // ---------------------------------------------------------------- all or nothing

  /** Everything with commercial value: balances, installments, payments, applications, cash and stock. */
  datatype Comercio = Comercio(l: Ledger, stock: map<nat, int>)

  function SinEstado(l: Ledger): Ledger {
    if l.cuenta.None? then l else l.(cuenta := Some(l.cuenta.value.(estado := Pendiente)))
  }

  function Valor(t: Tablas): Comercio { Comercio(SinEstado(t.l), t.stock) }

  lemma ValorOfRevertir(l: Ledger, l': Ledger)
    requires SinEstado(l) == SinEstado(l')
    ensures SinEstado(Revertir(l)) == SinEstado(Revertir(l'))
  {
    FilterAgrees(l.caja.movimientos, Reversible(l), Reversible(l'));
    assert ReversasDeVenta(l) == ReversasDeVenta(l');
  }

  lemma {:induction false} FilterAgrees<T>(s: seq<T>, a: T -> bool, b: T -> bool)
    requires forall i :: 0 <= i < |s| ==> a(s[i]) == b(s[i])
    ensures Filter(s, a) == Filter(s, b)
  {
    if |s| == 0 {
    } else {
      FilterAgrees(s[..|s| - 1], a, b);
    }
  }

  lemma PasoIsAllOrNothing(s: Saga, e: Evento)
    requires !e.Nota? && !e.Otro?
    ensures EsReversion(s, e) ==> Valor(Paso(s, e).t) == Valor(Finalizar(s.t))
    ensures !EsReversion(s, e) ==> Valor(Paso(s, e).t) == Valor(s.t) && Paso(s, e).t.venta.estado == s.t.venta.estado
  {
    hide Reponer, Revertir;
  }

  /**
   All or nothing, exactly once: after any interleaving of requests, claims, failures, stops, retries
   and deliveries, either no reversal took effect and nothing of value moved, or one did and the rows
   are those of one reversal of the rows before the void began.
   */
  lemma {:induction false} VoidIsAllOrNothing(s: Saga, es: seq<Evento>)
    requires !YaAnulada(s) && forall i :: 0 <= i < |es| ==> !es[i].Nota? && !es[i].Otro?
    ensures var r := Correr(s, es);
            && Contar(s, es, EsReversion) == (if YaAnulada(r) then 1 else 0)
            && Valor(r.t) == (if YaAnulada(r) then Valor(Finalizar(s.t)) else Valor(s.t))
            && (!YaAnulada(r) ==> r.t.venta.estado == s.t.venta.estado)
  {
    hide Paso, Revertir, Reponer, SinEstado;
    if |es| == 0 {
    } else {
      var u, e := es[..|es| - 1], es[|es| - 1];
      VoidIsAllOrNothing(s, u);
      ReversalsAreCounted(s, u);
      PasoCounts(Correr(s, u), e);
      PasoIsAllOrNothing(Correr(s, u), e);
      if EsReversion(Correr(s, u), e) {
        ValorOfRevertir(Correr(s, u).t.l, s.t.l);
      }
    }
  }

  // ---------------------------------------------------------------- when an acceptance takes effect

  /** Exactly when an undisturbed delivery leaves the sale annulled. */
  lemma DeliveryAnnulsIff(s: Saga, w: nat, d: Entrega)
    requires FaseDe(s, w) == Libre
    ensures YaAnulada(Entregar(s, w, d)) <==> YaAnulada(s) || (d.estado == ACCEPTED && !Atrasada(s.t.venta, d))
  {
    DeliveryIsAplicarBaja(s, w, d);
  }

  /** An acceptance whose process stopped after the mirror is completed by delivering it again. */
  lemma RedeliveryCompletesAcceptance(s: Saga, w: nat, d: Entrega)
    requires FaseDe(s, w) == Leida(d) && d.estado == ACCEPTED
    ensures YaAnulada(Entregar(Paso(Paso(s, Reflejar(w)), Caida(w)), w, d))
  {
    hide Finalizar, Entregar, Restaurar;
    DeliveryAnnulsIff(Paso(Paso(s, Reflejar(w)), Caida(w)), w, d);
  }

  /**
   If instead the worker's reversal failed, the failure is stamped with the local clock, and the same
   acceptance delivered again annuls the sale only if the remote changed it after that instant.
   */
  lemma RetryAfterFailureIff(s: Saga, w: nat, x: nat, retryable: bool, attempts: nat, now: int, d: Entrega)
    requires !YaAnulada(s) && s.t.job.Some? && x != w && FaseDe(s, x) == Libre && d.estado == ACCEPTED
    ensures YaAnulada(Entregar(Paso(s, Falla(w, retryable, attempts, now)), x, d)) <==> now <= d.updatedAt
  {
    hide Finalizar, Entregar, Restaurar;
    DeliveryAnnulsIff(Paso(s, Falla(w, retryable, attempts, now)), x, d);
  }

  /** The sale is annulled, or some process carries an acceptance to its reversal. */
  ghost predicate EnVia(s: Saga) { YaAnulada(s) || exists w: nat :: FaseDe(s, w) == PorFinalizar }

  predicate Entra(s: Saga, e: Evento) {
    (e.Reflejar? && FaseDe(s, e.w).Leida? && FaseDe(s, e.w).d.estado == ACCEPTED) || (e.Nota? && e.motivo.DevolucionTotal?)
  }

  /** The only process carrying an acceptance fails or stops, or a note reopens the sale and nobody carries one. */
  ghost predicate Abandona(s: Saga, e: Evento) {
    || ((e.Falla? || e.Caida?) && !YaAnulada(s) && FaseDe(s, e.w) == PorFinalizar
        && forall x: nat :: x != e.w ==> FaseDe(s, x) != PorFinalizar)
    || (EsReapertura(s, e) && forall x: nat :: FaseDe(s, x) != PorFinalizar)
  }

  /** Who carries an acceptance after a step. */
  lemma CarrierAfter(s: Saga, e: Evento, w: nat)
    ensures FaseDe(Paso(s, e), w) == PorFinalizar <==>
              || (e.Reflejar? && e.w == w && FaseDe(s, w).Leida? && FaseDe(s, w).d.estado == ACCEPTED)
              || (FaseDe(s, w) == PorFinalizar && !((e.Finaliza? || e.Falla? || e.Caida?) && e.w == w))
  {
    hide EscribirPedido, EscribirReintento, EscribirEspejo, EscribirFallo, Finalizar, AceptarNota, R.Paso, R.FijarEstado;
  }

  /** When the sale is annulled after a step. */
  lemma AnnulledAfter(s: Saga, e: Evento)
    ensures YaAnulada(Paso(s, e)) <==>
              || (e.Finaliza? && FaseDe(s, e.w) == PorFinalizar)
              || (if e.Nota? then e.motivo.DevolucionTotal? else YaAnulada(s))
  {
    hide Reponer, Revertir, AcreditarNota, R.Paso, PedirBaja, R.FijarEstado;
  }

  lemma PasoEnViaIff(s: Saga, e: Evento)
    ensures EnVia(Paso(s, e)) <==> Entra(s, e) || (EnVia(s) && !Abandona(s, e))
  {
    hide Paso, YaAnulada;
    var r := Paso(s, e);
    AnnulledAfter(s, e);
    if e.Reflejar? && Entra(s, e) {
      CarrierAfter(s, e, e.w);
    } else if !Entra(s, e) {
      if EnVia(s) && !Abandona(s, e) && !YaAnulada(r) {
        var w: nat :| FaseDe(s, w) == PorFinalizar && (e.Falla? || e.Caida? ==> w != e.w);
        CarrierAfter(s, e, w);
      }
      if EnVia(r) && !YaAnulada(r) {
        var w: nat :| FaseDe(r, w) == PorFinalizar;
        CarrierAfter(s, e, w);
      }
    }
  }

  /** An acceptance was mirrored, or a total return accepted, and nothing since abandoned it. */
  ghost predicate TieneEfecto(s: Saga, es: seq<Evento>) {
    |es| > 0 &&
    var u, e := es[..|es| - 1], es[|es| - 1];
    Entra(Correr(s, u), e) || (TieneEfecto(s, u) && !Abandona(Correr(s, u), e))
  }

  /** Once no process carries an acceptance, the sale is annulled exactly when one was mirrored and not abandoned since. */
  lemma AnnulledIff(s: Saga, es: seq<Evento>)
    requires !YaAnulada(s) && s.fases == map[]
    requires forall w: nat :: FaseDe(Correr(s, es), w) != PorFinalizar
    ensures YaAnulada(Correr(s, es)) <==> TieneEfecto(s, es)
  {
    hide Correr, TieneEfecto;
    RunEnViaIff(s, es);
  }

  lemma {:induction false} RunEnViaIff(s: Saga, es: seq<Evento>)
    requires !YaAnulada(s) && s.fases == map[]
    ensures EnVia(Correr(s, es)) <==> TieneEfecto(s, es)
  {
    if |es| == 0 {
    } else {
      hide Paso, EnVia, Entra, Abandona;
      RunEnViaIff(s, es[..|es| - 1]);
      PasoEnViaIff(Correr(s, es[..|es| - 1]), es[|es| - 1]);
    }
  }

  /** The sale is not annulled, was last stamped at `now` or later, and no process carries an acceptance. */
  ghost predicate SinAceptacion(s: Saga, now: int) {
    && !YaAnulada(s) && s.t.venta.bajaAt.Some? && s.t.venta.bajaAt.value >= now
    && forall w: nat :: !FaseDe(s, w).Leida? && FaseDe(s, w) != PorFinalizar
  }

  /** From `now` on: local clocks have passed it, and the remote document is older. */
  predicate TrasFallo(e: Evento, now: int) {
    match e
    case EscribePedido(_, t) => t >= now
    case EscribeReintento(_, t) => t >= now
    case Falla(_, _, _, t) => t >= now
    case Leer(_, d) => d.updatedAt < now
    case _ => true
  }

  lemma PasoStaysWithout(s: Saga, e: Evento, now: int)
    requires SinAceptacion(s, now) && TrasFallo(e, now) && !(e.Nota? && e.motivo.DevolucionTotal?)
    ensures SinAceptacion(Paso(s, e), now)
  {
    hide Reponer, Revertir, AcreditarNota, R.Paso, PedirBaja, R.FijarEstado;
    var r := Paso(s, e);
    if e.Leer? || e.Reflejar? || e.Finaliza? {
      assert !FaseDe(s, e.w).Leida? && FaseDe(s, e.w) != PorFinalizar;
      assert r == s;
    } else {
      assert r.t.venta.bajaAt.Some? && r.t.venta.bajaAt.value >= now && !YaAnulada(r);
      forall w: nat ensures !FaseDe(r, w).Leida? && FaseDe(r, w) != PorFinalizar {
        assert !FaseDe(s, w).Leida? && FaseDe(s, w) != PorFinalizar;
      }
    }
  }

  lemma {:induction false} StaysWithout(s: Saga, es: seq<Evento>, now: int)
    requires SinAceptacion(s, now)
    requires forall i :: 0 <= i < |es| ==> TrasFallo(es[i], now) && !(es[i].Nota? && es[i].motivo.DevolucionTotal?)
    ensures SinAceptacion(Correr(s, es), now) && Contar(s, es, EsReversion) == 0
  {
    hide Paso;
    if |es| == 0 {
    } else {
      StaysWithout(s, es[..|es| - 1], now);
      PasoStaysWithout(Correr(s, es[..|es| - 1]), es[|es| - 1], now);
    }
  }

  /**
   An acceptance whose reversal failed, with no other process carrying one, stays lost: no run of
   deliveries of the unchanged remote document, polls, retries, requests and account transactions
   annuls the sale.
   */
  lemma FailedAcceptanceIsLost(s: Saga, w: nat, retryable: bool, attempts: nat, now: int, es: seq<Evento>)
    requires !YaAnulada(s) && s.t.job.Some? && FaseDe(s, w) == PorFinalizar
    requires forall x: nat :: x != w ==> !FaseDe(s, x).Leida? && FaseDe(s, x) != PorFinalizar
    requires forall i :: 0 <= i < |es| ==> TrasFallo(es[i], now) && !(es[i].Nota? && es[i].motivo.DevolucionTotal?)
    ensures var r := Paso(s, Falla(w, retryable, attempts, now));
            !YaAnulada(Correr(r, es)) && Contar(r, es, EsReversion) == 0
  {
    hide Correr, Contar;
    var r := Paso(s, Falla(w, retryable, attempts, now));
    forall x: nat ensures !FaseDe(r, x).Leida? && FaseDe(r, x) != PorFinalizar {
      if x != w { assert FaseDe(r, x) == FaseDe(s, x); }
    }
    StaysWithout(r, es, now);
  }

  /**
   A note accepted after the reversal takes the sale out of its annulled state, and the acceptance
   delivered again reverses it a second time: the whole sale returns to stock once more.
   */
  lemma LateNoteReversesAgain(s: Saga, lineas: seq<Detalle>, total: nat, motivo: Motivo, w: nat, d: Entrega, v: nat)
    requires YaAnulada(s) && s.t.venta.conSucursal && !motivo.DevolucionTotal?
    requires FaseDe(s, w) == Libre && d.estado == ACCEPTED && !Atrasada(s.t.venta, d)
    ensures var n := Paso(s, Nota(lineas, total, motivo));
            && !YaAnulada(n) && YaAnulada(Entregar(n, w, d))
            && Existencia(Entregar(n, w, d).t.stock, v)
               == Existencia(s.t.stock, v) + Devuelve(Nota(lineas, total, motivo), v) + Vendido(s.t, v)
  {
    hide Reponer, Revertir, AcreditarNota;
    var n := Paso(s, Nota(lineas, total, motivo));
    DeliveryIsAplicarBaja(n, w, d);
    PasoMovesStock(s, Nota(lineas, total, motivo), v);
    ReponerAdds(n.t.stock, n.t.detalles, v);
  }

  // ---------------------------------------------------------------- one request to the remote

  /** Some request passed its checks and has not written yet. */
  ghost predicate AlguienPide(s: Saga) { exists w: nat :: FaseDe(s, w) == Pidiendo }

  lemma PasoKeepsSolicitud(s: Saga, e: Evento)
    requires s.t.venta.solicitud.Some? && !AlguienPide(s)
    ensures Paso(s, e).t.venta.solicitud.Some? && !AlguienPide(Paso(s, e))
  {
    hide Reponer, Revertir, AcreditarNota, R.Paso, PedirBaja, R.FijarEstado;
    var r := Paso(s, e);
    forall w: nat ensures FaseDe(r, w) != Pidiendo { assert FaseDe(s, w) != Pidiendo; }
  }

  /**
   Once the remote has answered a void request and no other request is between its checks and its
   write, the sale never sends another, whatever happens next.
   */
  lemma {:induction false} RequestNeverRepeats(s: Saga, es: seq<Evento>, apta: bool)
    requires s.t.venta.solicitud.Some? && !AlguienPide(s)
    ensures Correr(s, es).t.venta.solicitud.Some? && !AlguienPide(Correr(s, es))
    ensures !PuedePedir(Correr(s, es).t.venta, apta)
  {
    hide Paso, AlguienPide;
    if |es| == 0 {
    } else {
      RequestNeverRepeats(s, es[..|es| - 1], apta);
      PasoKeepsSolicitud(Correr(s, es[..|es| - 1]), es[|es| - 1]);
    }
  }

  /** Otherwise the late write forgets the remote's answer and arms the job again: exactly when the answer is safe. */
  lemma RemoteAnswerIsKeptIff(s: Saga)
    requires s.t.venta.solicitud.Some?
    ensures (forall es: seq<Evento> :: Correr(s, es).t.venta.solicitud.Some?) <==> !AlguienPide(s)
  {
    hide Paso;
    if AlguienPide(s) {
      var w: nat :| FaseDe(s, w) == Pidiendo;
      LateRequestForgets(s, w, 0);
      assert Correr(s, [EscribePedido(w, 0)]).t.venta.solicitud.None?;
    } else {
      forall es: seq<Evento> ensures Correr(s, es).t.venta.solicitud.Some? { RequestNeverRepeats(s, es, true); }
    }
  }

  lemma LateRequestForgets(s: Saga, w: nat, now: int)
    requires FaseDe(s, w) == Pidiendo
    ensures var r := Correr(s, [EscribePedido(w, now)]);
            r.t.venta.solicitud.None? && r.t.job == Some(Job(JobPending, 0)) && r.t.venta.baja == PendienteEnvio
  {
    assert [EscribePedido(w, now)][..0] == [];
    assert Correr(s, [EscribePedido(w, now)]) == Paso(Correr(s, []), EscribePedido(w, now));
  }

  // ---------------------------------------------------------------- giving the account its state back

  function Proceso(e: Evento): Option<nat> {
    match e
    case Pedir(w, _) => Some(w)
    case EscribePedido(w, _) => Some(w)
    case Reintentar(w, _) => Some(w)
    case EscribeReintento(w, _) => Some(w)
    case Leer(w, _) => Some(w)
    case Reflejar(w) => Some(w)
    case Finaliza(w) => Some(w)
    case LeerCuenta(w) => Some(w)
    case EscribeEstado(w) => Some(w)
    case Falla(w, _, _, _) => Some(w)
    case Caida(w) => Some(w)
    case _ => None
  }

  lemma {:induction false} OthersKeepFase(s: Saga, es: seq<Evento>, w: nat)
    requires forall i :: 0 <= i < |es| ==> Proceso(es[i]) != Some(w)
    ensures FaseDe(Correr(s, es), w) == FaseDe(s, w)
  {
    hide Paso;
    if |es| == 0 {
    } else {
      OthersKeepFase(s, es[..|es| - 1], w);
      PasoKeepsFase(Correr(s, es[..|es| - 1]), es[|es| - 1], w);
    }
  }

  lemma PasoKeepsFase(s: Saga, e: Evento, w: nat)
    requires Proceso(e) != Some(w)
    ensures FaseDe(Paso(s, e), w) == FaseDe(s, w)
  {
    hide Reponer, Revertir, AcreditarNota, R.Paso, PedirBaja, R.FijarEstado;
  }

  /**
   restoreAccount reads the account and later writes a status computed from what it read, with any
   run of other transactions in between: the status column agrees with the balance afterwards exactly
   when the balance was zero at the read and at the write, or at neither. An account annulled in
   between is no longer annulled.
   */
  lemma SplitRestoreIff(s: Saga, es: seq<Evento>, w: nat)
    requires FaseDe(s, w) == PorRestaurar && LedgerOk(s.t.l)
    requires s.t.l.cuenta.Some? && s.t.l.cuenta.value.estado == AnulacionPendiente
    requires forall i :: 0 <= i < |es| ==> Proceso(es[i]) != Some(w)
    requires R.Cubiertas(s.t.l, Historia(Paso(s, LeerCuenta(w)), es))
    ensures var b := Correr(Paso(s, LeerCuenta(w)), es).t.l;
            var r := Paso(Correr(Paso(s, LeerCuenta(w)), es), EscribeEstado(w)).t.l;
            && b.cuenta.Some? && r.cuenta.Some?
            && (EstadoDeCuentaOk(r) <==>
                  (b.cuenta.value.saldoPendiente == 0 <==> s.t.l.cuenta.value.saldoPendiente == 0))
            && r.cuenta.value.estado != Anulada && SinEstado(r) == SinEstado(b)
  {
    hide LedgerOk, EstadoDeCuentaOk, R.Correr, R.Cubiertas, Paso, Correr, Historia;
    var a := Paso(s, LeerCuenta(w));
    RestoreReads(s, w);
    SagaIsLedgerRun(a, es);
    OthersKeepFase(a, es, w);
    RestoreWrites(Correr(a, es), w);
    RestoreKeepsEstadoIff(s.t.l, Historia(a, es));
  }

  lemma RestoreReads(s: Saga, w: nat)
    requires FaseDe(s, w) == PorRestaurar && s.t.l.cuenta.Some? && s.t.l.cuenta.value.estado == AnulacionPendiente
    ensures var a := Paso(s, LeerCuenta(w));
            a.t == s.t && FaseDe(a, w) == Restaurando(EstadoRestaurado(s.t.l.cuenta.value))
  {
  }

  lemma RestoreWrites(s: Saga, w: nat)
    requires FaseDe(s, w).Restaurando?
    ensures Paso(s, EscribeEstado(w)).t.l == R.FijarEstado(s.t.l, FaseDe(s, w).estado)
  {
  }

  /** What a rejected void leaves in the account's estado column. */
  lemma RejectionRestoresEstadoIff(t: Tablas, now: int, d: Entrega)
    requires Solicitar(t, true, now).Done? && d.estado == REJECTED && d.updatedAt >= now
    requires t.l.cuenta.Some? && t.l.cuenta.value.estado in {Pendiente, Parcial, Pagada}
    ensures var c, r := t.l.cuenta.value, AplicarBaja(Solicitar(t, true, now).state, d).l;
            r == t.l <==>
              match c.estado
              case Pagada => c.saldoPendiente == 0
              case Parcial => c.saldoPendiente != 0 && c.adelanto > 0
              case _ => c.saldoPendiente != 0 && c.adelanto <= 0
  {
  }

  /**
   An account sold without an advance, once partly collected, comes back from a rejected void as
   though nothing had been collected: pendiente instead of parcial, though its balance is kept.
   */
  lemma RejectionForgetsCollections(t: Tablas, dto: PagoDto, now: int, d: Entrega)
    requires LedgerOk(t.l) && Registrar(t.l, dto).Done? && Registrar(t.l, dto).state != t.l
    requires var c := Registrar(t.l, dto).state.cuenta.value; c.saldoPendiente > 0 && c.adelanto <= 0
    requires Solicitar(t.(l := Registrar(t.l, dto).state), true, now).Done?
    requires (d.estado == REJECTED || d.estado == FAILED) && d.updatedAt >= now
    ensures var before := Registrar(t.l, dto).state;
            var after := AplicarBaja(Solicitar(t.(l := before), true, now).state, d).l;
            && before.cuenta.value.estado == Parcial
            && after == before.(cuenta := Some(before.cuenta.value.(estado := Pendiente)))
  {
    hide Aplicar, Repartir, Antes, ResolverCaja, LedgerOk, Cobro;
  }
}
