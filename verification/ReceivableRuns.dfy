/** Whole runs of the receivable ledger: conservation, waterfall order, undoing and commuting. */
module ReceivableRuns {
  import opened Sums
  import opened Wrappers
  import opened CashRegister
  import opened Receivable
  import opened ReceivableLaws

  /**
   Every transaction of the services that write these rows. EvFijarEstado is the last write of a
   restore, with a status computed from an earlier read; EvAjenas are the cash rows that other sales
   write into open sessions.
   */
  datatype Evento =
    | EvPago(dto: PagoDto)
    | EvAnular(pago: nat, razonVacia: bool)
    | EvDebito(ventaTotal: int, total: nat, vence: int)
    | EvNotaParcial(total: nat)
    | EvNotaTotal(total: nat)
    | EvPedirBaja
    | EvRestaurar
    | EvFijarEstado(estado: CuentaEstado)
    | EvRevertir
    | EvAjenas(movimientos: seq<Movimiento>)
    | EvAbrir(usuario: nat, sucursal: nat, permiso: SucursalCaja, metodosValidos: bool, saldos: seq<Saldo>)
    | EvMover(usuario: nat, sucursal: nat, retiro: bool, monto: int, metodo: nat, metodoValido: bool)
    | EvCerrar(usuario: nat, sucursal: nat, metodosValidos: bool, saldos: seq<Saldo>)

  function FijarEstado(l: Ledger, x: CuentaEstado): Ledger {
    if l.cuenta.None? then l else l.(cuenta := Some(l.cuenta.value.(estado := x)))
  }

  /** Cash rows of other sales: in open sessions, not openings, and of no payment of this sale. */
  predicate Ajenas(c: Caja, ms: seq<Movimiento>) {
    forall i :: 0 <= i < |ms| ==> Abierta(c, ms[i].sesion) && ms[i].tipo != Apertura && ms[i].pago == None
  }

  function Paso(l: Ledger, e: Evento): Ledger {
    match e
    case EvPago(d) => Registrar(l, d).After(l)
    case EvAnular(p, vacia) => AnularPago(l, p, vacia).After(l)
    case EvDebito(v, t, f) => CargarDebito(l, v, t, f)
    case EvNotaParcial(t) => AcreditarNota(l, t, false)
    case EvNotaTotal(t) => AcreditarNota(l, t, true)
    case EvPedirBaja => PedirBaja(l)
    case EvRestaurar => Restaurar(l)
    case EvFijarEstado(x) => FijarEstado(l, x)
    case EvRevertir => Revertir(l)
    case EvAjenas(ms) => if Ajenas(l.caja, ms) then l.(caja := Agregar(l.caja, ms)) else l
    case EvAbrir(u, s, p, m, x) => l.(caja := Abrir(l.caja, u, s, p, m, x).After(l.caja))
    case EvMover(u, s, r, n, m, v) => l.(caja := Mover(l.caja, u, s, r, n, m, v).After(l.caja))
    case EvCerrar(u, s, m, x) => l.(caja := Cerrar(l.caja, u, s, m, x).After(l.caja))
  }

  function Correr(l: Ledger, es: seq<Evento>): Ledger {
    if |es| == 0 then l else Paso(Correr(l, es[..|es| - 1]), es[|es| - 1])
  }

  // ---------------------------------------------------------------- what stands along a run

  /** At every point of the run. */
  ghost predicate Siempre(l: Ledger, es: seq<Evento>, ok: Ledger -> bool) {
    forall k :: 0 <= k <= |es| ==> ok(Correr(l, es[..k]))
  }

  /** At no point of the run. */
  ghost predicate Nunca(l: Ledger, es: seq<Evento>, rompe: (Ledger, Evento) -> bool) {
    forall i :: 0 <= i < |es| ==> !rompe(Correr(l, es[..i]), es[i])
  }

  lemma SiempreSnoc(l: Ledger, es: seq<Evento>, ok: Ledger -> bool)
    requires |es| > 0
    ensures Siempre(l, es, ok) <==> Siempre(l, es[..|es| - 1], ok) && ok(Correr(l, es))
    ensures Siempre(l, es[..|es| - 1], ok) ==> ok(Correr(l, es[..|es| - 1]))
  {
    hide Correr;
    var u := es[..|es| - 1];
    assert forall k :: 0 <= k <= |u| ==> u[..k] == es[..k];
    assert es[..|es|] == es && u[..|u|] == u;
  }

  lemma NuncaSnoc(l: Ledger, es: seq<Evento>, rompe: (Ledger, Evento) -> bool)
    requires |es| > 0
    ensures Nunca(l, es, rompe) <==>
              Nunca(l, es[..|es| - 1], rompe) && !rompe(Correr(l, es[..|es| - 1]), es[|es| - 1])
  {
    hide Correr;
    var u := es[..|es| - 1];
    assert forall k :: 0 <= k <= |u| ==> u[..k] == es[..k];
  }

  /** What one step keeps exactly unless it breaks it, a run keeps exactly while no step breaks it. */
  lemma {:induction false} StandsIff(l: Ledger, es: seq<Evento>, ok: Ledger -> bool, rompe: (Ledger, Evento) -> bool)
    requires ok(l) && forall m, e :: ok(m) ==> (ok(Paso(m, e)) <==> !rompe(m, e))
    ensures Siempre(l, es, ok) <==> Nunca(l, es, rompe)
  {
    hide Paso;
    if |es| == 0 {
      assert es[..0] == es;
    } else {
      hide Siempre, Nunca;
      var u := es[..|es| - 1];
      StandsIff(l, u, ok, rompe);
      SiempreSnoc(l, es, ok);
      NuncaSnoc(l, es, rompe);
    }
  }

  // ---------------------------------------------------------------- conservation over every run

  lemma CajaPasoKeepsCash(l: Ledger, e: Evento)
    requires CashOk(l) && (e.EvAjenas? || e.EvAbrir? || e.EvMover? || e.EvCerrar?)
    ensures CashOk(Paso(l, e))
  {
    hide CajaOk;
    var r := Paso(l, e);
    match e {
      case EvAjenas(ms) => if Ajenas(l.caja, ms) { AgregarKeepsCaja(l.caja, ms); }
      case EvAbrir(u, s, p, m, x) => AbrirKeepsCaja(l.caja, u, s, p, m, x); InicialesAreForeign(|l.caja.sesiones|, x);
      case EvMover(u, s, rt, n, m, v) => MoverKeepsCaja(l.caja, u, s, rt, n, m, v);
      case EvCerrar(u, s, m, x) => CerrarKeepsCaja(l.caja, u, s, m, x);
    }
    forall i | 0 <= i < |r.caja.movimientos| ensures MovimientoOk(r.caja.movimientos[i], r.pagos) {
      if i < |l.caja.movimientos| {
        assert MovimientoOk(l.caja.movimientos[i], l.pagos);
      }
    }
  }

  lemma {:induction false} InicialesAreForeign(s: nat, saldos: seq<Saldo>)
    ensures forall i :: 0 <= i < |Iniciales(s, saldos)| ==> Iniciales(s, saldos)[i].pago == None
  {
    if |saldos| == 0 {
    } else {
      InicialesAreForeign(s, saldos[..|saldos| - 1]);
    }
  }

  /** The one event that needs a condition: a total return must cover the balance it meets. */
  predicate Cubierta(l: Ledger, e: Evento) { e.EvNotaTotal? ==> Saldada(l, e.total) }

  predicate Cubiertas(l: Ledger, es: seq<Evento>) {
    |es| == 0 || (Cubiertas(l, es[..|es| - 1]) && Cubierta(Correr(l, es[..|es| - 1]), es[|es| - 1]))
  }

  /** Each event keeps the ledger, and a total return exactly when it covers the balance. */
  lemma PasoKeepsLedgerIff(l: Ledger, e: Evento)
    requires LedgerOk(l)
    ensures LedgerOk(Paso(l, e)) <==> Cubierta(l, e)
  {
    hide RowsOk, CuentaOk, CashOk, Saldada;
    match e {
      case EvPago(d) => RegistrarKeepsLedger(l, d);
      case EvAnular(p, vacia) => AnularKeepsLedger(l, p, vacia);
      case EvDebito(v, t, f) => DebitoKeepsLedger(l, v, t, f);
      case EvNotaParcial(t) => NotaParcialKeepsLedger(l, t);
      case EvNotaTotal(t) => NotaTotalKeepsLedgerIff(l, t);
      case EvPedirBaja => RequestKeepsLedger(l);
      case EvRestaurar => RequestKeepsLedger(l);
      case EvFijarEstado(x) => FijarEstadoKeepsLedger(l, x);
      case EvRevertir => RevertirKeepsLedger(l);
      case _ => CajaPasoKeepsCash(l, e); SameRowsKeepLedger(l, Paso(l, e));
    }
  }

  lemma FijarEstadoKeepsLedger(l: Ledger, x: CuentaEstado)
    requires LedgerOk(l)
    ensures LedgerOk(FijarEstado(l, x))
  {
  }

  lemma SameRowsKeepLedger(l: Ledger, r: Ledger)
    requires LedgerOk(l) && r.(caja := l.caja) == l && CashOk(r)
    ensures LedgerOk(r)
  {
  }

  /** Every reachable ledger is consistent, finalised voids and covering total returns included. */
  lemma {:induction false} RunKeepsLedger(l: Ledger, es: seq<Evento>)
    requires LedgerOk(l) && Cubiertas(l, es)
    ensures LedgerOk(Correr(l, es))
  {
    hide LedgerOk, Cubierta;
    if |es| == 0 {
    } else {
      RunKeepsLedger(l, es[..|es| - 1]);
      PasoKeepsLedgerIff(Correr(l, es[..|es| - 1]), es[|es| - 1]);
    }
  }

  lemma {:induction false} WithoutTotalReturns(l: Ledger, es: seq<Evento>)
    requires forall i :: 0 <= i < |es| ==> !es[i].EvNotaTotal?
    ensures Cubiertas(l, es)
  {
    if |es| == 0 {
    } else {
      WithoutTotalReturns(l, es[..|es| - 1]);
    }
  }

  // Two ways of counting the live applications: by installment and by payment.

  function MontoVivo(pagos: seq<Pago>): Aplicacion -> int {
    (a: Aplicacion) => if a.pago < |pagos| && pagos[a.pago].activo then a.monto else 0
  }

  function PorCuota(apps: seq<Aplicacion>): Cuota -> int {
    (c: Cuota) => if Viva(c) then Sum(apps, DeCuota(c.numero)) else 0
  }

  function PorPago(pagos: seq<Pago>, apps: seq<Aplicacion>): int -> int {
    (i: int) => if 0 <= i < |pagos| && pagos[i].activo && pagos[i].cobranza then Sum(apps, DePago(i)) else 0
  }

  lemma {:induction false} CountByCuota(apps: seq<Aplicacion>, cs: seq<Cuota>, pagos: seq<Pago>)
    requires NumerosDistintos(cs)
    requires forall i :: 0 <= i < |apps| ==> AplicacionOk(apps[i], cs, pagos)
    ensures Sum(cs, PorCuota(apps)) == Sum(apps, MontoVivo(pagos))
  {
    if |apps| == 0 {
      SumZero(cs, PorCuota(apps));
    } else {
      var u, a := apps[..|apps| - 1], apps[|apps| - 1];
      CountByCuota(u, cs, pagos);
      var one := (c: Cuota) => if Viva(c) then DeCuota(c.numero)(a) else 0;
      SumSplit(cs, PorCuota(apps), PorCuota(u), one);
      assert AplicacionOk(a, cs, pagos);
      var k :| 0 <= k < |cs| && cs[k].numero == a.cuota && Viva(cs[k]) == pagos[a.pago].activo;
      SumSingle(cs, one, k);
    }
  }

  lemma {:induction false} CountByPago(apps: seq<Aplicacion>, pagos: seq<Pago>, ids: seq<int>)
    requires |ids| == |pagos| && forall i :: 0 <= i < |ids| ==> ids[i] == i
    requires forall i :: 0 <= i < |apps| ==> apps[i].pago < |pagos| && pagos[apps[i].pago].cobranza
    ensures Sum(ids, PorPago(pagos, apps)) == Sum(apps, MontoVivo(pagos))
  {
    if |apps| == 0 {
      SumZero(ids, PorPago(pagos, apps));
    } else {
      var u, a := apps[..|apps| - 1], apps[|apps| - 1];
      CountByPago(u, pagos, ids);
      var one := (i: int) => if i == a.pago && pagos[a.pago].activo then a.monto else 0;
      SumSplit(ids, PorPago(pagos, apps), PorPago(pagos, u), one);
      SumSingle(ids, one, a.pago);
    }
  }

  /** What the live installments have received is what the active collections brought. */
  lemma PagadoIsCobrado(l: Ledger)
    requires RowsOk(l)
    ensures Sum(l.cuotas, PagadoVivo()) == Sum(l.pagos, CobranzaActiva())
  {
    var apps := l.aplicaciones;
    forall i | 0 <= i < |apps| ensures apps[i].pago < |l.pagos| && l.pagos[apps[i].pago].cobranza {
      assert AplicacionOk(apps[i], l.cuotas, l.pagos);
    }
    forall i | 0 <= i < |l.cuotas| ensures PagadoVivo()(l.cuotas[i]) == PorCuota(apps)(l.cuotas[i]) {
      assert CuotaOk(l.cuotas[i], apps);
    }
    SumMatch(l.cuotas, l.cuotas, PagadoVivo(), PorCuota(apps));
    CountByCuota(apps, l.cuotas, l.pagos);
    var ids := seq(|l.pagos|, i => i);
    forall i | 0 <= i < |ids| ensures PorPago(l.pagos, apps)(ids[i]) == CobranzaActiva()(l.pagos[i]) {
      assert PagoOk(l.pagos, apps, i);
    }
    SumMatch(ids, l.pagos, PorPago(l.pagos, apps), CobranzaActiva());
    CountByPago(apps, l.pagos, ids);
  }

  /** The balance law: what is owed is what the live installments asked for minus the active collections. */
  lemma BalanceLaw(l: Ledger)
    requires LedgerOk(l) && l.cuenta.Some?
    ensures l.cuenta.value.saldoPendiente == Sum(l.cuotas, OriginalVivo()) - Sum(l.pagos, CobranzaActiva())
  {
    forall i | 0 <= i < |l.cuotas|
      ensures OriginalVivo()(l.cuotas[i]) == SaldoDe()(l.cuotas[i]) + PagadoVivo()(l.cuotas[i])
    {
      assert CuotaOk(l.cuotas[i], l.aplicaciones);
    }
    SumSplit(l.cuotas, OriginalVivo(), SaldoDe(), PagadoVivo());
    PagadoIsCobrado(l);
  }

  /** The header columns: total is advance plus financed, financed is the sum of the schedule. */
  ghost predicate CabeceraOk(l: Ledger) {
    l.cuenta.Some? ==>
      var c := l.cuenta.value;
      c.totalVenta == c.adelanto + c.saldoInicial && c.saldoInicial == Sum(l.cuotas, Original())
  }

  lemma DebitoKeepsCabecera(l: Ledger, ventaTotal: int, total: nat, vence: int)
    requires CuentaOk(l) && CabeceraOk(l)
    ensures CabeceraOk(CargarDebito(l, ventaTotal, total, vence))
  {
    hide Insertar;
    if l.cuenta.Some? {
      InsertarSum(l.cuotas, NuevaCuota(l.cuotas, vence, total), Original());
    } else {
      SumSnoc([], Cuota(1, vence, total, 0, total, CuotaPendiente), Original());
    }
  }

  predicate EsNota(e: Evento) { e.EvNotaParcial? || e.EvNotaTotal? }

  lemma PasoKeepsCabecera(l: Ledger, e: Evento)
    requires LedgerOk(l) && CabeceraOk(l) && !EsNota(e)
    ensures CabeceraOk(Paso(l, e))
  {
    hide RowsOk, CashOk, Reversas, ReversasDeVenta, Aplicar, Parte;
    match e {
      case EvDebito(v, t, f) => DebitoKeepsCabecera(l, v, t, f);
      case _ => SumMatch(Paso(l, e).cuotas, l.cuotas, Original(), Original());
    }
  }

  lemma InicialCabecera(l: Ledger)
    requires Inicial(l)
    ensures CabeceraOk(l)
  {
    SumMatch(l.cuotas, l.cuotas, SaldoDe(), Original());
  }

  lemma {:induction false} RunKeepsCabecera(l: Ledger, es: seq<Evento>)
    requires LedgerOk(l) && CabeceraOk(l)
    requires forall i :: 0 <= i < |es| ==> !EsNota(es[i])
    ensures CabeceraOk(Correr(l, es))
  {
    if |es| == 0 {
    } else {
      var u := es[..|es| - 1];
      RunKeepsCabecera(l, u);
      WithoutTotalReturns(l, u);
      RunKeepsLedger(l, u);
      PasoKeepsCabecera(Correr(l, u), es[|es| - 1]);
    }
  }

  lemma {:induction false} RunKeepsAlive(l: Ledger, es: seq<Evento>)
    requires forall i :: 0 <= i < |l.cuotas| ==> Viva(l.cuotas[i])
    requires forall i :: 0 <= i < |es| ==> !es[i].EvRevertir? && !es[i].EvNotaTotal?
    ensures forall i :: 0 <= i < |Correr(l, es).cuotas| ==> Viva(Correr(l, es).cuotas[i])
  {
    hide Paso;
    if |es| == 0 {
    } else {
      RunKeepsAlive(l, es[..|es| - 1]);
      PasoKeepsAlive(Correr(l, es[..|es| - 1]), es[|es| - 1]);
    }
  }

  lemma PasoKeepsAlive(l: Ledger, e: Evento)
    requires (forall i :: 0 <= i < |l.cuotas| ==> Viva(l.cuotas[i])) && !e.EvRevertir? && !e.EvNotaTotal?
    ensures forall i :: 0 <= i < |Paso(l, e).cuotas| ==> Viva(Paso(l, e).cuotas[i])
  {
    hide Parte, Aplicar, ReversasDeVenta, Reversas, AplicadoA, Rebaja, EnCajaCerrada;
    if e.EvDebito? && l.cuenta.Some? {
      InsertarIndices(l.cuotas, NuevaCuota(l.cuotas, e.vence, e.total));
    }
  }

  /**
   Conservation. From a freshly opened account, after any mix of payments, annulments, accepted
   debit notes, void requests, rejections and cash operations, and until a void is finalised,
   the three headline columns and the schedule agree.
   */
  lemma Conservation(l: Ledger, es: seq<Evento>)
    requires Inicial(l)
    requires forall i :: 0 <= i < |es| ==> !EsNota(es[i]) && !es[i].EvRevertir?
    ensures var r := Correr(l, es);
            && LedgerOk(r)
            && (r.cuenta.Some? ==>
                  var c := r.cuenta.value;
                  && c.saldoPendiente == Sum(r.cuotas, SaldoDe())
                  && c.saldoPendiente == c.saldoInicial - Sum(r.pagos, CobranzaActiva())
                  && c.totalVenta == c.adelanto + c.saldoInicial)
            && forall i :: 0 <= i < |r.cuotas| ==>
                 && r.cuotas[i].pagado + r.cuotas[i].saldo == r.cuotas[i].original
                 && r.cuotas[i].pagado == Sum(r.aplicaciones, DeCuota(r.cuotas[i].numero))
  {
    var r := Correr(l, es);
    InicialIsOk(l);
    InicialCabecera(l);
    WithoutTotalReturns(l, es);
    RunKeepsLedger(l, es);
    RunKeepsCabecera(l, es);
    RunKeepsAlive(l, es);
    forall i | 0 <= i < |r.cuotas| ensures CuotaOk(r.cuotas[i], r.aplicaciones) && Viva(r.cuotas[i]) {
    }
    if r.cuenta.Some? {
      BalanceLaw(r);
      SumMatch(r.cuotas, r.cuotas, OriginalVivo(), Original());
    }
  }

  lemma NotaVaciaKeepsCuotas(cs: seq<Cuota>)
    ensures RebajarTodas(cs, 0) == cs
  {
    forall i | 0 <= i < |cs| ensures RebajarTodas(cs, 0)[i] == cs[i] {
      DespuesNonNegative(cs, i + 1);
    }
  }

  lemma BalanceIsNonNegative(l: Ledger)
    requires LedgerOk(l) && l.cuenta.Some?
    ensures l.cuenta.value.saldoPendiente >= 0
  {
    forall i | 0 <= i < |l.cuotas| ensures SaldoDe()(l.cuotas[i]) >= 0 { assert CuotaOk(l.cuotas[i], l.aplicaciones); }
    SumNonNegative(l.cuotas, SaldoDe());
  }

  /** A note takes off the originals what it takes off the balances. */
  lemma NotaMovesOriginals(l: Ledger, total: nat)
    requires LedgerOk(l) && l.cuenta.Some?
    ensures Sum(RebajarTodas(l.cuotas, total), Original())
            == Sum(l.cuotas, Original()) - Min(total, l.cuenta.value.saldoPendiente)
  {
    hide Despues, CajaOk, AplicacionOk, PagoOk, SinChoques;
    var cs, rs := l.cuotas, RebajarTodas(l.cuotas, total);
    var resto := (c: Cuota) => c.original - c.saldo;
    forall k | 0 <= k < |cs| ensures resto(rs[k]) == resto(cs[k]) { assert CuotaOk(cs[k], l.aplicaciones); }
    SumMatch(rs, cs, resto, resto);
    SumSplit(rs, Original(), resto, SaldoDe());
    SumSplit(cs, Original(), resto, SaldoDe());
    RebajarTotal(l, total);
  }

  /** A return that moves a header column: the account is not annulled, and there is something to take. */
  predicate RompeCabecera(l: Ledger, e: Evento) {
    EsNota(e) && l.cuenta.Some? && l.cuenta.value.estado != Anulada &&
    var c := l.cuenta.value;
    !(c.totalVenta >= 0 && (e.total == 0 || (c.totalVenta == 0 && c.saldoPendiente == 0)))
  }

  /**
   An accepted return moves the account total, down to zero at most, but not the financed amount: the
   header law survives exactly a note of nothing, or one on a sale total of zero with nothing owed.
   */
  lemma NotaBreaksCabeceraIff(l: Ledger, total: nat, devolucionTotal: bool)
    requires LedgerOk(l) && CabeceraOk(l) && l.cuenta.Some? && l.cuenta.value.estado != Anulada
    ensures CabeceraOk(AcreditarNota(l, total, devolucionTotal)) <==>
              var c := l.cuenta.value;
              c.totalVenta >= 0 && (total == 0 || (c.totalVenta == 0 && c.saldoPendiente == 0))
  {
    hide RebajarTodas, CashOk, RowsOk;
    var r := AcreditarNota(l, total, devolucionTotal);
    BalanceIsNonNegative(l);
    NotaMovesOriginals(l, total);
    SumMatch(r.cuotas, RebajarTodas(l.cuotas, total), Original(), Original());
    if total == 0 { NotaVaciaKeepsCuotas(l.cuotas); }
  }

  lemma PasoKeepsCabeceraIff(l: Ledger, e: Evento)
    requires LedgerOk(l) && CabeceraOk(l)
    ensures CabeceraOk(Paso(l, e)) <==> !RompeCabecera(l, e)
  {
    hide LedgerOk, CabeceraOk;
    if !EsNota(e) {
      PasoKeepsCabecera(l, e);
    } else if l.cuenta.Some? && l.cuenta.value.estado != Anulada {
      NotaBreaksCabeceraIff(l, e.total, e.EvNotaTotal?);
    }
  }

  predicate Descubierta(l: Ledger, e: Evento) { !Cubierta(l, e) }

  /** The ledger is consistent at every point of a run exactly while every total return covers the balance it meets. */
  lemma LedgerStandsIff(l: Ledger, es: seq<Evento>)
    requires LedgerOk(l)
    ensures Siempre(l, es, LedgerOk) <==> Nunca(l, es, Descubierta)
  {
    hide Paso, LedgerOk, Cubierta, Siempre, Nunca;
    forall m, e | LedgerOk(m) ensures LedgerOk(Paso(m, e)) <==> !Descubierta(m, e) { PasoKeepsLedgerIff(m, e); }
    StandsIff(l, es, LedgerOk, Descubierta);
  }

  ghost predicate LedgerYCabecera(l: Ledger) { LedgerOk(l) && CabeceraOk(l) }

  predicate RompeAmbas(l: Ledger, e: Evento) { Descubierta(l, e) || RompeCabecera(l, e) }

  /** And with it the header identity exactly while no return moves a header column. */
  lemma HeaderStandsIff(l: Ledger, es: seq<Evento>)
    requires LedgerOk(l) && CabeceraOk(l)
    ensures Siempre(l, es, LedgerYCabecera) <==> Nunca(l, es, RompeAmbas)
  {
    hide Paso, LedgerOk, CabeceraOk, Cubierta, RompeCabecera, Siempre, Nunca;
    forall m, e | LedgerYCabecera(m) ensures LedgerYCabecera(Paso(m, e)) <==> !RompeAmbas(m, e) {
      PasoKeepsLedgerIff(m, e);
      PasoKeepsCabeceraIff(m, e);
    }
    StandsIff(l, es, LedgerYCabecera, RompeAmbas);
  }

  // ---------------------------------------------------------------- closed sessions

  lemma PasoKeepsClosed(l: Ledger, e: Evento, s: nat)
    requires s < |l.caja.sesiones| && !l.caja.sesiones[s].abierta
    ensures var c := Paso(l, e).caja; s < |c.sesiones| && c.sesiones[s] == l.caja.sesiones[s]
  {
  }

  lemma {:induction false} RunKeepsClosed(l: Ledger, es: seq<Evento>, s: nat)
    requires s < |l.caja.sesiones| && !l.caja.sesiones[s].abierta
    ensures var c := Correr(l, es).caja; s < |c.sesiones| && c.sesiones[s] == l.caja.sesiones[s]
  {
    if |es| == 0 {
    } else {
      RunKeepsClosed(l, es[..|es| - 1], s);
      PasoKeepsClosed(Correr(l, es[..|es| - 1]), es[|es| - 1], s);
    }
  }

  lemma PasoKeepsCash(l: Ledger, e: Evento)
    requires CashOk(l)
    ensures CashOk(Paso(l, e))
  {
    hide CajaOk, Repartir, Aplicar, Deshacer, RebajarTodas, Insertar;
    match e {
      case EvPago(d) =>
        if Registrar(l, d).Done? && Registrar(l, d).state != l {
          RegistradoKeepsCash(l, d, l.cuenta.value, ResolverCaja(l.caja, d.caja).state);
        }
      case EvAnular(p, vacia) => if AnularPago(l, p, vacia).Done? { AnularKeepsCash(l, p); }
      case EvRevertir => RevertirCash(l);
      case EvDebito(_, _, _) =>
      case EvNotaParcial(_) =>
      case EvNotaTotal(_) =>
      case EvPedirBaja =>
      case EvRestaurar =>
      case EvFijarEstado(_) =>
      case _ => CajaPasoKeepsCash(l, e);
    }
  }

  lemma {:induction false} RunKeepsCash(l: Ledger, es: seq<Evento>)
    requires CashOk(l)
    ensures CashOk(Correr(l, es))
  {
    hide Paso, CashOk;
    if |es| == 0 {
    } else {
      RunKeepsCash(l, es[..|es| - 1]);
      PasoKeepsCash(Correr(l, es[..|es| - 1]), es[|es| - 1]);
    }
  }

  /**
   A closed session keeps its expected amount, and the sum of its movements, in every later state,
   whatever this sale and the others do.
   */
  lemma ClosedSessionIsFinal(l: Ledger, es: seq<Evento>, s: nat)
    requires CashOk(l) && s < |l.caja.sesiones| && !l.caja.sesiones[s].abierta
    ensures var c := Correr(l, es).caja;
            && s < |c.sesiones| && c.sesiones[s] == l.caja.sesiones[s]
            && c.sesiones[s].esperado == Some(Sum(c.movimientos, EnSesion(s)))
            && c.sesiones[s].inicial == Sum(c.movimientos, AperturaEn(s))
  {
    RunKeepsClosed(l, es, s);
    RunKeepsCash(l, es);
    assert SesionOk(Correr(l, es).caja, s);
  }

  /** Cash rows are only appended, and sessions never go away. */
  ghost predicate CajaCrece(a: Caja, b: Caja) {
    |a.sesiones| <= |b.sesiones| && a.movimientos <= b.movimientos
  }

  lemma PasoAppendsCash(l: Ledger, e: Evento)
    ensures CajaCrece(l.caja, Paso(l, e).caja)
  {
    hide Repartir, Aplicar, Deshacer, RebajarTodas, Insertar, Reversas, ReversasDeVenta, Iniciales, Filter, Antes;
  }

  lemma {:induction false} RunAppendsCash(l: Ledger, es: seq<Evento>)
    ensures CajaCrece(l.caja, Correr(l, es).caja)
  {
    hide Paso;
    if |es| == 0 {
    } else {
      RunAppendsCash(l, es[..|es| - 1]);
      PasoAppendsCash(Correr(l, es[..|es| - 1]), es[|es| - 1]);
    }
  }

  lemma PasoKeepsPayments(l: Ledger, e: Evento)
    ensures |l.pagos| <= |Paso(l, e).pagos| && (l.cuenta.Some? ==> Paso(l, e).cuenta.Some?)
  {
    hide Repartir, Aplicar, Deshacer, RebajarTodas, Insertar, Reversas, ReversasDeVenta, Iniciales, Filter, Antes;
  }

  lemma {:induction false} RunKeepsPayments(l: Ledger, es: seq<Evento>)
    ensures |l.pagos| <= |Correr(l, es).pagos| && (l.cuenta.Some? ==> Correr(l, es).cuenta.Some?)
  {
    hide Paso;
    if |es| == 0 {
    } else {
      RunKeepsPayments(l, es[..|es| - 1]);
      PasoKeepsPayments(Correr(l, es[..|es| - 1]), es[|es| - 1]);
    }
  }

  /**
   A close adds up the movements, lets any run of the other transactions pass and writes the session:
   the cash laws survive exactly when the rows written into it in between add up to nothing.
   */
  lemma StaleCloseOverRun(l: Ledger, es: seq<Evento>, s: nat, declarados: seq<Saldo>)
    requires CashOk(l) && s < |l.caja.sesiones|
    ensures var c := Correr(l, es).caja;
            && s < |c.sesiones| && |l.caja.movimientos| <= |c.movimientos|
            && (CajaOk(CerrarLeida(c, l.caja, s, declarados)) <==>
                  Sum(c.movimientos[|l.caja.movimientos|..], EnSesion(s)) == 0)
  {
    hide CajaOk, Correr, Sum, CerrarLeida;
    RunKeepsCash(l, es);
    RunAppendsCash(l, es);
    var c, n := Correr(l, es).caja, |l.caja.movimientos|;
    StaleCloseKeepsCajaIff(c, l.caja, s, declarados);
    assert c.movimientos == l.caja.movimientos + c.movimientos[n..];
    SumConcat(l.caja.movimientos, c.movimientos[n..], EnSesion(s));
  }

  // ---------------------------------------------------------------- the waterfall

  lemma AbiertoAfterAbono(c: Cuota, x: int)
    requires 0 <= x <= Abierto(c)
    ensures Abierto(Abonar(c, x)) == Abierto(c) - x
  {
  }

  lemma ParteFits(cs: seq<Cuota>, a: int, k: nat)
    requires k < |cs| && a >= 0
    ensures 0 <= Parte(cs, a, k) <= Abierto(cs[k])
  {
    ParteStep(cs, a, k);
  }

  lemma {:induction false} AntesAfterAbono(cs: seq<Cuota>, a: int, k: nat)
    requires k <= |cs| && a >= 0
    ensures Antes(Repartir(cs, a), k) == Antes(cs, k) - Min(a, Antes(cs, k))
  {
    hide Parte, Abonar, Abierto;
    if k == 0 {
    } else {
      var j := k - 1;
      AntesAfterAbono(cs, a, j);
      ParteStep(cs, a, j);
      ParteFits(cs, a, j);
      AbiertoAfterAbono(cs[j], Parte(cs, a, j));
      assert Repartir(cs, a)[j] == Abonar(cs[j], Parte(cs, a, j));
    }
  }

  /** Paying a and then b leaves the installments as paying a + b. */
  lemma RepartirComposes(cs: seq<Cuota>, a: int, b: int)
    requires a >= 0 && b >= 0
    ensures Repartir(Repartir(cs, a), b) == Repartir(cs, a + b)
  {
    hide Antes, Parte, Abierto;
    var mid := Repartir(cs, a);
    forall k | 0 <= k < |cs| ensures Repartir(mid, b)[k] == Repartir(cs, a + b)[k] {
      AntesAfterAbono(cs, a, k);
      AntesAfterAbono(cs, a, k + 1);
      ParteStep(cs, a, k);
      ParteStep(mid, b, k);
      ParteStep(cs, a + b, k);
      assert Parte(cs, a + b, k) == Parte(cs, a, k) + Parte(mid, b, k);
    }
  }

  /** From an untouched schedule, an installment is only reached when all earlier ones are settled. */
  lemma PaidPrefix(cs: seq<Cuota>, t: int, i: nat, j: nat)
    requires i < j < |cs| && t >= 0
    requires forall k :: 0 <= k < |cs| ==> cs[k].saldo >= 0
    ensures Repartir(cs, t)[j] != cs[j] ==> Repartir(cs, t)[i].saldo == 0
  {
    hide Parte;
    AntesNonNegative(cs, i + 1, j);
    ParteStep(cs, t, i);
    ParteStep(cs, t, j);
    AntesNonNegative(cs, j, j + 1);
  }

  /** A payment either changes nothing or adds one collection and pours it over the installments. */
  lemma PaymentRows(m: Ledger, d: PagoDto)
    ensures var r := Registrar(m, d).After(m);
            r == m || (d.monto > 0 && r.cuotas == Repartir(m.cuotas, d.monto) && |r.pagos| == |m.pagos| + 1
                       && r.pagos == m.pagos + [r.pagos[|m.pagos|]] && CobranzaActiva()(r.pagos[|m.pagos|]) == d.monto)
  {
    hide Repartir, Aplicar, Antes, ResolverCaja;
  }

  lemma PaymentExtendsWaterfall(cs: seq<Cuota>, m: Ledger, d: PagoDto)
    requires Sum(m.pagos, CobranzaActiva()) >= 0 && m.cuotas == Repartir(cs, Sum(m.pagos, CobranzaActiva()))
    ensures var r := Registrar(m, d).After(m);
            Sum(r.pagos, CobranzaActiva()) >= 0 && r.cuotas == Repartir(cs, Sum(r.pagos, CobranzaActiva()))
  {
    hide Registrar, Repartir;
    var r := Registrar(m, d).After(m);
    PaymentRows(m, d);
    if r != m {
      SumSnoc(m.pagos, r.pagos[|m.pagos|], CobranzaActiva());
      RepartirComposes(cs, Sum(m.pagos, CobranzaActiva()), d.monto);
    }
  }

  lemma NoPaymentYet(cs: seq<Cuota>)
    ensures Repartir(cs, 0) == cs
  {
    forall k | 0 <= k < |cs| ensures Repartir(cs, 0)[k] == cs[k] {
      AntesNonNegative(cs, k, k);
    }
  }

  /** A run of payments alone is one waterfall of everything collected. */
  lemma {:induction false} PaymentsAreOneWaterfall(l: Ledger, es: seq<Evento>)
    requires Inicial(l)
    requires forall i :: 0 <= i < |es| ==> es[i].EvPago?
    ensures var r := Correr(l, es);
            && Sum(r.pagos, CobranzaActiva()) >= 0
            && r.cuotas == Repartir(l.cuotas, Sum(r.pagos, CobranzaActiva()))
  {
    if |es| == 0 {
      SumZero(l.pagos, CobranzaActiva());
      NoPaymentYet(l.cuotas);
    } else {
      PaymentsAreOneWaterfall(l, es[..|es| - 1]);
      PaymentExtendsWaterfall(l.cuotas, Correr(l, es[..|es| - 1]), es[|es| - 1].dto);
    }
  }

  /** With no annulments the paid installments form a prefix in due order. */
  lemma PaymentsSettleInDueOrder(l: Ledger, es: seq<Evento>, i: nat, j: nat)
    requires Inicial(l) && forall k :: 0 <= k < |es| ==> es[k].EvPago?
    requires i < j < |l.cuotas|
    ensures var r := Correr(l, es);
            |r.cuotas| == |l.cuotas| && (r.cuotas[j].pagado > 0 ==> r.cuotas[i].saldo == 0)
  {
    PaymentsAreOneWaterfall(l, es);
    PaidPrefix(l.cuotas, Sum(Correr(l, es).pagos, CobranzaActiva()), i, j);
  }

  /** A replayed request id changes nothing, even with another amount. */
  lemma ReplayIsHarmless(l: Ledger, d: PagoDto, d': PagoDto)
    requires Registrar(l, d).Done? && d'.requestId == d.requestId && d'.monto > 0
    ensures Registrar(Registrar(l, d).state, d') == Done(Registrar(l, d).state)
  {
    var r := Registrar(l, d).state;
    if r != l {
      assert r.pagos[|l.pagos|].requestId == Some(d'.requestId);
    }
  }

  // ---------------------------------------------------------------- annulments

  lemma QuitarOtro(apps: seq<Aplicacion>, n: nat, p: nat, q: nat)
    requires p != q
    ensures AplicadoA(Filter(apps, NoDe(p)), n, q) == AplicadoA(apps, n, q)
  {
    SumFilter(apps, NoDe(p), DeAmbos(n, q), DeAmbos(n, q));
  }

  ghost predicate SameButCashOrder(a: Ledger, b: Ledger) {
    && a.(caja := b.caja) == b
    && a.caja.sesiones == b.caja.sesiones
    && multiset(a.caja.movimientos) == multiset(b.caja.movimientos)
  }

  lemma ReversasIgnoreOthers(movs: seq<Movimiento>, p: nat, q: nat, pago: Pago, otro: Pago)
    requires p != q
    ensures Reversas(movs + Reversas(movs, p, otro), q, pago) == Reversas(movs, q, pago)
  {
    var mas := Reversas(movs, p, otro);
    FilterConcatForeign(movs, mas, q);
  }

  lemma {:induction false} FilterConcatForeign(movs: seq<Movimiento>, mas: seq<Movimiento>, q: nat)
    requires forall i :: 0 <= i < |mas| ==> mas[i].pago != Some(q)
    ensures Filter(movs + mas, MovDe(q)) == Filter(movs, MovDe(q))
  {
    if |mas| == 0 {
      assert movs + mas == movs;
    } else {
      var u := mas[..|mas| - 1];
      FilterConcatForeign(movs, u, q);
      assert movs + mas == (movs + u) + [mas[|mas| - 1]];
      FilterSnoc(movs + u, mas[|mas| - 1], MovDe(q));
    }
  }

  lemma DeshacerCommutes(l: Ledger, p: nat, q: nat)
    requires LedgerOk(l) && p != q && p < |l.pagos| && q < |l.pagos|
    requires AnularPago(l, p, false).Done? && AnularPago(l, q, false).Done?
    ensures var apps := l.aplicaciones;
            Deshacer(Deshacer(l.cuotas, apps, p), Filter(apps, NoDe(p)), q)
            == Deshacer(Deshacer(l.cuotas, apps, q), Filter(apps, NoDe(q)), p)
  {
    hide RowsOk, CuentaOk, CashOk, Reversas, OtraActiva, EnCajaCerrada, Filter;
    var apps := l.aplicaciones;
    var lp, lq := AnularPago(l, p, false).state, AnularPago(l, q, false).state;
    AnularKeepsLedger(l, p, false);
    AnularKeepsLedger(l, q, false);
    var one, two := Deshacer(lp.cuotas, lp.aplicaciones, q), Deshacer(lq.cuotas, lq.aplicaciones, p);
    forall k | 0 <= k < |l.cuotas| ensures one[k] == two[k] {
      QuitarOtro(apps, l.cuotas[k].numero, p, q);
      QuitarOtro(apps, l.cuotas[k].numero, q, p);
      ClampNeverFires(l, p, k);
      ClampNeverFires(l, q, k);
      ClampNeverFires(lp, q, k);
      ClampNeverFires(lq, p, k);
    }
  }

  lemma AnnulCashCommutes(l: Ledger, p: nat, q: nat)
    requires p != q && AnularPago(l, p, false).Done? && AnularPago(l, q, false).Done?
    requires AnularPago(AnularPago(l, p, false).state, q, false).Done?
    ensures var c := AnularPago(AnularPago(l, p, false).state, q, false).state.caja;
            && c.sesiones == l.caja.sesiones
            && multiset(c.movimientos)
               == multiset(l.caja.movimientos) + multiset(Reversas(l.caja.movimientos, p, l.pagos[p]))
                  + multiset(Reversas(l.caja.movimientos, q, l.pagos[q]))
  {
    ReversasIgnoreOthers(l.caja.movimientos, p, q, l.pagos[q], l.pagos[p]);
  }

  lemma AnnulAccountCommutes(l: Ledger, p: nat, q: nat)
    requires p != q && AnularPago(l, p, false).Done? && AnularPago(l, q, false).Done?
    requires AnularPago(AnularPago(l, p, false).state, q, false).Done?
    ensures var r := AnularPago(AnularPago(l, p, false).state, q, false).state;
            && r.pagos == l.pagos[p := l.pagos[p].(activo := false)][q := l.pagos[q].(activo := false)]
            && r.cuenta == Some(l.cuenta.value.(
                                saldoPendiente := l.cuenta.value.saldoPendiente + l.pagos[p].monto + l.pagos[q].monto,
                                estado := if OtraActiva(r.pagos, q) || l.cuenta.value.adelanto > 0 then Parcial else Pendiente))
  {
    var lp := AnularPago(l, p, false).state;
    var r := AnularPago(lp, q, false).state;
    if OtraActiva(lp.pagos, q) {
      var i :| 0 <= i < |lp.pagos| && i != q && lp.pagos[i].cobranza && lp.pagos[i].activo;
      assert r.pagos[i].cobranza && r.pagos[i].activo;
    }
    if OtraActiva(r.pagos, q) {
      var i :| 0 <= i < |r.pagos| && i != q && r.pagos[i].cobranza && r.pagos[i].activo;
      assert lp.pagos[i].cobranza && lp.pagos[i].activo;
    }
  }

  lemma OtraActivaAgrees(pagos: seq<Pago>, p: nat, q: nat)
    requires p < |pagos| && q < |pagos| && !pagos[p].activo && !pagos[q].activo
    ensures OtraActiva(pagos, p) == OtraActiva(pagos, q)
  {
  }

  lemma AnnulRowsCommute(l: Ledger, p: nat, q: nat)
    requires LedgerOk(l) && p != q
    requires AnularPago(l, p, false).Done? && AnularPago(l, q, false).Done?
    requires AnularPago(AnularPago(l, p, false).state, q, false).Done?
    requires AnularPago(AnularPago(l, q, false).state, p, false).Done?
    ensures var a := AnularPago(AnularPago(l, p, false).state, q, false).state;
            var b := AnularPago(AnularPago(l, q, false).state, p, false).state;
            a.cuotas == b.cuotas && a.aplicaciones == b.aplicaciones
  {
    DeshacerCommutes(l, p, q);
    FilterCommutes(l.aplicaciones, NoDe(p), NoDe(q));
  }

  lemma AnnulHeadCommutes(l: Ledger, p: nat, q: nat)
    requires p != q && AnularPago(l, p, false).Done? && AnularPago(l, q, false).Done?
    requires AnularPago(AnularPago(l, p, false).state, q, false).Done?
    requires AnularPago(AnularPago(l, q, false).state, p, false).Done?
    ensures var a := AnularPago(AnularPago(l, p, false).state, q, false).state;
            var b := AnularPago(AnularPago(l, q, false).state, p, false).state;
            a.pagos == b.pagos && a.cuenta == b.cuenta
  {
    AnnulAccountCommutes(l, p, q);
    AnnulAccountCommutes(l, q, p);
    var pagos := l.pagos[p := l.pagos[p].(activo := false)][q := l.pagos[q].(activo := false)];
    assert pagos == l.pagos[q := l.pagos[q].(activo := false)][p := l.pagos[p].(activo := false)];
    OtraActivaAgrees(pagos, p, q);
  }

  /** Two annulments commute: only the order of the cash rows remembers which came first. */
  lemma AnnulmentsCommute(l: Ledger, p: nat, q: nat)
    requires LedgerOk(l) && p != q
    requires AnularPago(l, p, false).Done? && AnularPago(l, q, false).Done?
    ensures var lp, lq := AnularPago(l, p, false).state, AnularPago(l, q, false).state;
            && AnularPago(lp, q, false).Done? && AnularPago(lq, p, false).Done?
            && SameButCashOrder(AnularPago(lp, q, false).state, AnularPago(lq, p, false).state)
  {
    AnnulLeavesOthersAnnullable(l, p, q);
    AnnulLeavesOthersAnnullable(l, q, p);
    AnnulRowsCommute(l, p, q);
    AnnulHeadCommutes(l, p, q);
    AnnulCashCommutes(l, p, q);
    AnnulCashCommutes(l, q, p);
  }

  lemma AnnulLeavesOthersAnnullable(l: Ledger, p: nat, q: nat)
    requires LedgerOk(l) && p != q
    requires AnularPago(l, p, false).Done? && AnularPago(l, q, false).Done?
    ensures AnularPago(AnularPago(l, p, false).state, q, false).Done?
  {
    var lp := AnularPago(l, p, false).state;
    forall i | 0 <= i < |lp.caja.movimientos| && lp.caja.movimientos[i].pago == Some(q)
      ensures Abierta(lp.caja, lp.caja.movimientos[i].sesion)
    {
      assert l.caja.movimientos[i].pago == Some(q);
    }
  }

  function AnularTodos(l: Ledger, ps: seq<nat>): Ledger {
    if |ps| == 0 then l else AnularPago(AnularTodos(l, ps[..|ps| - 1]), ps[|ps| - 1], false).After(AnularTodos(l, ps[..|ps| - 1]))
  }

  ghost predicate Cubre(l: Ledger, ps: seq<nat>, p: nat)
    requires p < |l.pagos|
  {
    l.pagos[p].cobranza && l.pagos[p].activo ==> p in ps
  }

  /** After the annulments of `ps`, exactly the collections outside `ps` are still active. */
  lemma {:induction false} AnularTodosRows(l: Ledger, ps: seq<nat>)
    requires LedgerOk(l) && l.cuenta.Some? && l.cuenta.value.estado != Anulada
    requires forall p :: 0 <= p < |l.pagos| && l.pagos[p].cobranza && l.pagos[p].activo ==> !EnCajaCerrada(l.caja, p)
    ensures var r := AnularTodos(l, ps);
            && LedgerOk(r) && r.cuenta.Some? && r.cuenta.value.estado != Anulada
            && |r.pagos| == |l.pagos|
            && (forall p :: 0 <= p < |l.pagos| && l.pagos[p].cobranza ==>
                  r.pagos[p].cobranza && r.pagos[p].activo == (l.pagos[p].activo && p !in ps))
            && (forall p :: 0 <= p < |r.pagos| && r.pagos[p].cobranza && r.pagos[p].activo ==> !EnCajaCerrada(r.caja, p))
            && (forall p :: 0 <= p < |l.pagos| && !l.pagos[p].cobranza ==> r.pagos[p] == l.pagos[p])
  {
    hide RowsOk, CuentaOk, CashOk, Deshacer, Filter, OtraActiva;
    if |ps| == 0 {
    } else {
      var u, q := ps[..|ps| - 1], ps[|ps| - 1];
      AnularTodosRows(l, u);
      var m := AnularTodos(l, u);
      AnularKeepsLedger(m, q, false);
      var r := AnularTodos(l, ps);
      assert ps == u + [q];
      if AnularPago(m, q, false).Done? {
        forall p | 0 <= p < |r.pagos| && r.pagos[p].cobranza && r.pagos[p].activo ensures !EnCajaCerrada(r.caja, p) {
          forall i | 0 <= i < |r.caja.movimientos| && r.caja.movimientos[i].pago == Some(p)
            ensures Abierta(r.caja, r.caja.movimientos[i].sesion)
          {
            assert m.caja.movimientos[i].pago == Some(p);
          }
        }
      }
    }
  }

  /** With no active collection, every live installment is as it was issued. */
  lemma NothingCollectedIsClean(l: Ledger, i: nat)
    requires LedgerOk(l) && i < |l.cuotas| && Viva(l.cuotas[i])
    requires forall p :: 0 <= p < |l.pagos| ==> !(l.pagos[p].cobranza && l.pagos[p].activo)
    ensures var c := l.cuotas[i];
            c.pagado == 0 && c.saldo == c.original && (c.original > 0 ==> c.estado == CuotaPendiente)
  {
    var n := l.cuotas[i].numero;
    assert CuotaOk(l.cuotas[i], l.aplicaciones);
    forall k | 0 <= k < |l.aplicaciones| ensures DeCuota(n)(l.aplicaciones[k]) == 0 {
      assert AplicacionOk(l.aplicaciones[k], l.cuotas, l.pagos);
    }
    SumZero(l.aplicaciones, DeCuota(n));
  }

  /**
   Undoing everything. In any reachable ledger whose active collections sit in open sessions,
   annulling them all, in any order and with any repetitions, returns every live installment to
   its original balance and the account to the sum of its live originals.
   */
  lemma AnnulAllRestores(l: Ledger, ps: seq<nat>)
    requires LedgerOk(l) && l.cuenta.Some? && l.cuenta.value.estado != Anulada
    requires forall p :: 0 <= p < |l.pagos| && l.pagos[p].cobranza && l.pagos[p].activo ==> !EnCajaCerrada(l.caja, p)
    requires forall p :: 0 <= p < |l.pagos| ==> Cubre(l, ps, p)
    ensures var r := AnularTodos(l, ps);
            && (forall i :: 0 <= i < |r.cuotas| && Viva(r.cuotas[i]) ==>
                  && r.cuotas[i].saldo == r.cuotas[i].original
                  && (r.cuotas[i].original > 0 ==> r.cuotas[i].estado == CuotaPendiente))
            && r.cuenta.Some? && r.cuenta.value.saldoPendiente == Sum(r.cuotas, OriginalVivo())
  {
    var r := AnularTodos(l, ps);
    AnularTodosRows(l, ps);
    forall p | 0 <= p < |l.pagos| ensures !(r.pagos[p].cobranza && r.pagos[p].activo) {
      assert Cubre(l, ps, p);
    }
    forall i | 0 <= i < |r.cuotas| && Viva(r.cuotas[i])
      ensures r.cuotas[i].saldo == r.cuotas[i].original
      ensures r.cuotas[i].original > 0 ==> r.cuotas[i].estado == CuotaPendiente
    {
      NothingCollectedIsClean(r, i);
    }
    BalanceLaw(r);
    SumZero(r.pagos, CobranzaActiva());
  }
}
