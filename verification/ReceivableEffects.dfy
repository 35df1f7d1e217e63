/**
 What one transaction does, told without its helpers: which payments and annulments are taken, which
 drawer the money enters or leaves and by which method, and what each column of the account becomes.
 */
module ReceivableEffects {
  import opened Sums
  import opened Wrappers
  import opened CashRegister
  import opened Receivable
  import opened ReceivableLaws
  import opened ReceivableRuns

  // ---------------------------------------------------------------- a payment

  /** All that is asked of a new payment apart from the cash session. */
  predicate EnOrden(l: Ledger, d: PagoDto) {
    && l.cuenta.Some? && d.metodo.Some? && !Repetido(l.pagos, d.requestId)
    && 0 < d.monto <= l.cuenta.value.saldoPendiente
    && (match d.recibido
        case None => true
        case Some(x) => x == d.monto || (x > d.monto && d.metodo.value.permiteVuelto))
    && l.cuenta.value.estado != Anulada && l.cuenta.value.estado != AnulacionPendiente
  }

  /** A branch in cash mode takes money into an open session of the user there, and into no other. */
  predicate CajaLista(c: Caja, x: CajaPago) {
    && !x.SucursalAusente?
    && (x.ModoCaja? ==> TieneAbierta(c, x.usuario, x.sucursal))
  }

  /** Exactly which payments are taken, and how the others are refused. */
  lemma PaymentIff(l: Ledger, d: PagoDto)
    requires LedgerOk(l)
    ensures var o, repetido := Registrar(l, d), Repetido(l.pagos, d.requestId);
            && (o.Done? <==> d.monto > 0 && l.cuenta.Some? && (repetido || (EnOrden(l, d) && CajaLista(l.caja, d.caja))))
            && (o.Refused? ==>
                  o.error == if d.monto > 0 && (l.cuenta.None? || d.metodo.None? || (EnOrden(l, d) && d.caja.SucursalAusente?))
                    then NotFound else BadRequest)
            && (o.Done? && repetido ==> o.state == l)
  {
    hide RowsOk, CuentaOk, CashOk, Registrado, Antes, BuscarAbierta;
    ConflictUnreachable(l, d);
    if d.caja.ModoCaja? { FindsOpenIff(l.caja, d.caja.usuario, d.caja.sucursal); }
  }

  /** On any rows at all: a payment in order meets the conflict exactly when the open installments owe less than it. */
  lemma ConflictIff(l: Ledger, d: PagoDto)
    ensures Registrar(l, d) == Refused(Conflict) <==>
              EnOrden(l, d) && CajaLista(l.caja, d.caja) && Antes(l.cuotas, |l.cuotas|) < d.monto
  {
    hide Registrado, Antes, BuscarAbierta;
    if d.caja.ModoCaja? { FindsOpenIff(l.caja, d.caja.usuario, d.caja.sucursal); }
  }

  /**
   The rows a new payment leaves on the account: what was owed less its amount, every other column as
   it was, and one active collection with its method, its amount and its change.
   */
  lemma PaymentWrites(l: Ledger, d: PagoDto)
    requires LedgerOk(l) && EnOrden(l, d) && CajaLista(l.caja, d.caja)
    ensures var o, c, id := Registrar(l, d), l.cuenta.value, d.metodo.value.id;
            && o.Done?
            && o.state.cuenta == Some(Cuenta(c.totalVenta, c.adelanto, c.saldoInicial, c.saldoPendiente - d.monto, c.saldoFavor,
                                             if d.monto == c.saldoPendiente then Pagada else Parcial))
            && o.state.pagos == l.pagos + [Pago(true, Some(d.requestId), id, d.monto,
                                                if d.recibido.Some? then d.recibido.value - d.monto else 0, true)]
  {
    hide RowsOk, CuentaOk, CashOk, Antes, Repartir, Aplicar, ResolverCaja;
    PaymentIff(l, d);
  }

  /**
   Where the money of a payment goes. In cash mode one row is added: the amount, the method and the
   payment, in a session of that user in that branch which is open. Otherwise no cash row is.
   */
  lemma PaymentDrawer(l: Ledger, d: PagoDto)
    requires LedgerOk(l) && EnOrden(l, d)
    ensures var o, movs := Registrar(l, d), l.caja.movimientos;
            match d.caja
            case SucursalAusente => o == Refused(NotFound)
            case SinSucursal => o.Done? && o.state.caja == l.caja
            case ModoCajaApagado => o.Done? && o.state.caja == l.caja
            case ModoCaja(u, s) =>
              if TieneAbierta(l.caja, u, s) then
                && o.Done? && o.state.caja.sesiones == l.caja.sesiones
                && |o.state.caja.movimientos| == |movs| + 1 && movs <= o.state.caja.movimientos
                && var m := o.state.caja.movimientos[|movs|];
                   && EsDe(l.caja, u, s, m.sesion)
                   && m == Movimiento(m.sesion, Some(|l.pagos|), Some(d.metodo.value.id), Cobranza, d.monto)
              else o == Refused(BadRequest)
  {
    hide RowsOk, CuentaOk, CashOk, Antes, Repartir, Aplicar, BuscarAbierta;
    PaymentIff(l, d);
    if d.caja.ModoCaja? { FindsOpenIff(l.caja, d.caja.usuario, d.caja.sucursal); }
  }

  // ---------------------------------------------------------------- an annulment

  /** A collection of the sale with no cash row in a session that has closed. */
  predicate Anulable(l: Ledger, p: nat) {
    && l.cuenta.Some? && l.cuenta.value.estado != Anulada
    && p < |l.pagos| && l.pagos[p].cobranza && l.pagos[p].activo
    && forall i :: 0 <= i < |l.caja.movimientos| && l.caja.movimientos[i].pago == Some(p) ==>
         Abierta(l.caja, l.caja.movimientos[i].sesion)
  }

  predicate CobranzaViva(pagos: seq<Pago>) {
    exists i :: 0 <= i < |pagos| && pagos[i].cobranza && pagos[i].activo
  }

  /** Exactly which annulments are taken, and how the others are refused. */
  lemma AnnulmentIff(l: Ledger, p: nat, razonVacia: bool)
    ensures var o := AnularPago(l, p, razonVacia);
            && (o.Done? <==> !razonVacia && Anulable(l, p))
            && (o.Refused? ==>
                  o.error == if !razonVacia && !(p < |l.pagos| && l.pagos[p].cobranza && l.cuenta.Some?)
                    then NotFound else BadRequest)
  {
  }

  /**
   What an annulment leaves on the account: the balance takes the amount back, the status is partial
   exactly when there was an advance or some collection is still active, and of the payments only this
   one changes, to inactive.
   */
  lemma AnnulmentWrites(l: Ledger, p: nat)
    requires AnularPago(l, p, false).Done?
    ensures var r, c := AnularPago(l, p, false).state, l.cuenta.value;
            && |r.pagos| == |l.pagos| && !r.pagos[p].activo && l.pagos[p] == r.pagos[p].(activo := true)
            && (forall q :: 0 <= q < |l.pagos| && q != p ==> r.pagos[q] == l.pagos[q])
            && r.cuenta == Some(Cuenta(c.totalVenta, c.adelanto, c.saldoInicial, c.saldoPendiente + l.pagos[p].monto, c.saldoFavor,
                                       if c.adelanto > 0 || CobranzaViva(r.pagos) then Parcial else Pendiente))
            && r.caja.sesiones == l.caja.sesiones
  {
    hide Deshacer, Reversas, EnCajaCerrada, Filter;
    var r := AnularPago(l, p, false).state;
    if OtraActiva(l.pagos, p) {
      var i :| 0 <= i < |l.pagos| && i != p && l.pagos[i].cobranza && l.pagos[i].activo;
      assert r.pagos[i].cobranza && r.pagos[i].activo;
    }
  }

  // ---------------------------------------------------------------- every drawer, method by method

  predicate DelMetodo(m: Option<nat>, metodo: Option<nat>) { m.None? || metodo == m }

  /** The rows of session k, of one method, or of all when none is asked for. */
  function EnCajon(k: nat, m: Option<nat>): Movimiento -> int {
    (x: Movimiento) => if x.sesion == k && DelMetodo(m, x.metodo) then x.monto else 0
  }

  function DePagoEnCajon(p: nat, k: nat, m: Option<nat>): Movimiento -> int {
    (x: Movimiento) => if x.pago == Some(p) then EnCajon(k, m)(x) else 0
  }

  /** The rows of session k, if it is open, that belong to payments still active. */
  function VivoEnCajon(l: Ledger, k: nat, m: Option<nat>): Movimiento -> int {
    (x: Movimiento) =>
      if Abierta(l.caja, k) && x.pago.Some? && x.pago.value < |l.pagos| && l.pagos[x.pago.value].activo
      then EnCajon(k, m)(x) else 0
  }

  /** Every cash row of a payment of the sale carries the method of that payment. */
  ghost predicate MetodosOk(l: Ledger) {
    forall i :: 0 <= i < |l.caja.movimientos| ==> MetodoOk(l.caja.movimientos[i], l.pagos)
  }

  ghost predicate MetodoOk(m: Movimiento, pagos: seq<Pago>) {
    m.pago.Some? ==> m.pago.value < |pagos| && m.metodo == Some(pagos[m.pago.value].metodo)
  }

  /** What a transaction puts into session k, or takes out of it, by one method or by all. */
  function Entra(l: Ledger, e: Evento, k: nat, m: Option<nat>): int {
    match e
    case EvPago(d) =>
      if EnOrden(l, d) && d.caja.ModoCaja? && EsDe(l.caja, d.caja.usuario, d.caja.sucursal, k)
         && DelMetodo(m, Some(d.metodo.value.id)) then d.monto else 0
    case EvAnular(p, vacia) => if !vacia && Anulable(l, p) then -Sum(l.caja.movimientos, DePagoEnCajon(p, k, m)) else 0
    case EvRevertir => -Sum(l.caja.movimientos, VivoEnCajon(l, k, m))
    case EvAjenas(ms) => if Ajenas(l.caja, ms) then Sum(ms, EnCajon(k, m)) else 0
    case EvMover(u, s, retiro, n, metodo, valido) =>
      if DelMetodo(m, Some(metodo)) then Mueve(l.caja, u, s, retiro, n, valido, k) else 0
    case _ => 0
  }

  lemma PaymentMovesDrawer(l: Ledger, d: PagoDto, k: nat, m: Option<nat>)
    requires LedgerOk(l)
    ensures Sum(Paso(l, EvPago(d)).caja.movimientos, EnCajon(k, m))
            == Sum(l.caja.movimientos, EnCajon(k, m)) + Entra(l, EvPago(d), k, m)
  {
    hide RowsOk, CuentaOk, Sum, Registrar;
    PaymentIff(l, d);
    if EnOrden(l, d) {
      PaymentDrawer(l, d);
      var r, n := Paso(l, EvPago(d)), |l.caja.movimientos|;
      if d.caja.ModoCaja? && Registrar(l, d).Done? {
        var x := r.caja.movimientos[n];
        assert r.caja.movimientos == l.caja.movimientos + [x];
        SumSnoc(l.caja.movimientos, x, EnCajon(k, m));
        if EsDe(l.caja, d.caja.usuario, d.caja.sucursal, k) {
          OnlyOneOpen(l.caja, d.caja.usuario, d.caja.sucursal, x.sesion, k);
        }
      }
    }
  }

  lemma AnnulmentMovesDrawer(l: Ledger, p: nat, k: nat, m: Option<nat>)
    requires CashOk(l) && MetodosOk(l) && AnularPago(l, p, false).Done?
    ensures Sum(AnularPago(l, p, false).state.caja.movimientos, EnCajon(k, m))
            == Sum(l.caja.movimientos, EnCajon(k, m)) - Sum(l.caja.movimientos, DePagoEnCajon(p, k, m))
    ensures Sum(AnularPago(l, p, false).state.caja.movimientos, DePagoEnCajon(p, k, m)) == 0
  {
    hide Deshacer, OtraActiva, CajaOk, Sum, EnCajaCerrada;
    var movs, f, g := l.caja.movimientos, EnCajon(k, m), DePagoEnCajon(p, k, m);
    var mios, nuevos := Filter(movs, MovDe(p)), Reversas(movs, p, l.pagos[p]);
    FilterMembers(movs, MovDe(p));
    var neg := (x: Movimiento) => -f(x);
    forall i | 0 <= i < |nuevos| ensures f(nuevos[i]) == neg(mios[i]) && g(nuevos[i]) == neg(mios[i]) {
      var j :| 0 <= j < |movs| && movs[j] == mios[i];
      assert MovimientoOk(movs[j], l.pagos) && MetodoOk(movs[j], l.pagos);
    }
    SumConcat(movs, nuevos, f);
    SumConcat(movs, nuevos, g);
    SumMatch(nuevos, mios, f, neg);
    SumMatch(nuevos, mios, g, neg);
    SumNegate(mios, f, neg);
    SumFilter(movs, MovDe(p), f, g);
  }

  lemma ReversalMovesDrawer(l: Ledger, k: nat, m: Option<nat>)
    requires CashOk(l)
    ensures Sum(Revertir(l).caja.movimientos, EnCajon(k, m))
            == Sum(l.caja.movimientos, EnCajon(k, m)) - Sum(l.caja.movimientos, VivoEnCajon(l, k, m))
  {
    hide CajaOk, Sum;
    var movs, f, g := l.caja.movimientos, EnCajon(k, m), VivoEnCajon(l, k, m);
    var vivos, nuevos := Filter(movs, Reversible(l)), ReversasDeVenta(l);
    var neg := (x: Movimiento) => -f(x);
    forall i | 0 <= i < |movs| ensures g(movs[i]) == if Reversible(l)(movs[i]) then f(movs[i]) else 0 {
      assert MovimientoOk(movs[i], l.pagos);
    }
    SumConcat(movs, nuevos, f);
    SumMatch(nuevos, vivos, f, neg);
    SumNegate(vivos, f, neg);
    SumFilter(movs, Reversible(l), f, g);
  }

  /**
   The rows that undo: an annulment writes only rows that annul a collection, of its own payment, and
   the reversal only rows that annul the sale, of payments that were active; no old row is changed.
   */
  lemma UndoingRows(l: Ledger, p: nat)
    ensures AnularPago(l, p, false).Done? ==>
              var r, n := AnularPago(l, p, false).state.caja.movimientos, |l.caja.movimientos|;
              && l.caja.movimientos <= r
              && forall i :: n <= i < |r| ==> r[i].tipo == AnulacionCobranza && r[i].pago == Some(p)
    ensures var r, n := Revertir(l).caja.movimientos, |l.caja.movimientos|;
            && l.caja.movimientos <= r
            && forall i :: n <= i < |r| ==>
                 r[i].tipo == AnulacionVenta && r[i].pago.Some? && r[i].pago.value < |l.pagos| && l.pagos[r[i].pago.value].activo
  {
    hide Deshacer, OtraActiva, EnCajaCerrada;
    var movs := l.caja.movimientos;
    FilterMembers(movs, Reversible(l));
  }

  lemma MovementMovesMethod(c: Caja, u: nat, s: nat, retiro: bool, n: int, metodo: nat, valido: bool, k: nat, m: Option<nat>)
    requires CajaOk(c)
    ensures Sum(Mover(c, u, s, retiro, n, metodo, valido).After(c).movimientos, EnCajon(k, m))
            == Sum(c.movimientos, EnCajon(k, m)) + if DelMetodo(m, Some(metodo)) then Mueve(c, u, s, retiro, n, valido, k) else 0
  {
    hide Sum, CajaOk, Mover;
    MovementMovesDrawer(c, u, s, retiro, n, metodo, valido);
    var o := Mover(c, u, s, retiro, n, metodo, valido);
    if o.Done? {
      var x := o.state.movimientos[|c.movimientos|];
      assert o.state.movimientos == c.movimientos + [x];
      SumSnoc(c.movimientos, x, EnCajon(k, m));
      SumSnoc(c.movimientos, x, EnSesion(k));
      SumSnoc(c.movimientos, x, EnSesion(x.sesion));
    }
  }

  lemma OpeningMovesOthers(c: Caja, u: nat, s: nat, permiso: SucursalCaja, validos: bool, saldos: seq<Saldo>, k: nat, m: Option<nat>)
    requires k < |c.sesiones|
    ensures Sum(Abrir(c, u, s, permiso, validos, saldos).After(c).movimientos, EnCajon(k, m)) == Sum(c.movimientos, EnCajon(k, m))
  {
    hide Sum;
    if Abrir(c, u, s, permiso, validos, saldos).Done? {
      var ini := Iniciales(|c.sesiones|, saldos);
      SumConcat(c.movimientos, ini, EnCajon(k, m));
      InicialesRows(|c.sesiones|, saldos);
      SumZero(ini, EnCajon(k, m));
    }
  }

  /** Each transaction moves each drawer by exactly that, in total and by every method. */
  lemma StepMovesDrawer(l: Ledger, e: Evento, k: nat, m: Option<nat>)
    requires LedgerOk(l) && MetodosOk(l) && k < |l.caja.sesiones|
    ensures Sum(Paso(l, e).caja.movimientos, EnCajon(k, m)) == Sum(l.caja.movimientos, EnCajon(k, m)) + Entra(l, e, k, m)
  {
    hide RowsOk, CuentaOk, CajaOk, MetodosOk, Sum, Registrar, AnularPago, Revertir, Abrir, Mover, Anulable;
    match e {
      case EvPago(d) => PaymentMovesDrawer(l, d, k, m);
      case EvAnular(p, vacia) => AnnulmentIff(l, p, vacia); AnnulmentIff(l, p, false);
        if !vacia && Anulable(l, p) { AnnulmentMovesDrawer(l, p, k, m); }
      case EvRevertir => ReversalMovesDrawer(l, k, m);
      case EvAjenas(ms) => SumConcat(l.caja.movimientos, ms, EnCajon(k, m));
      case EvMover(u, s, rt, n, x, v) => MovementMovesMethod(l.caja, u, s, rt, n, x, v, k, m);
      case EvAbrir(u, s, p, v, x) => OpeningMovesOthers(l.caja, u, s, p, v, x, k, m);
      case _ =>
    }
  }

  lemma StepKeepsMethods(l: Ledger, e: Evento)
    requires MetodosOk(l)
    ensures MetodosOk(Paso(l, e))
  {
    hide Repartir, Aplicar, Deshacer, RebajarTodas, Insertar, Antes, ResolverCaja;
    var r := Paso(l, e);
    match e {
      case EvAnular(p, _) => FilterMembers(l.caja.movimientos, MovDe(p));
      case EvRevertir => FilterMembers(l.caja.movimientos, Reversible(l));
      case EvAbrir(_, _, _, _, x) => InicialesRows(|l.caja.sesiones|, x);
      case _ =>
    }
    forall i | 0 <= i < |r.caja.movimientos| ensures MetodoOk(r.caja.movimientos[i], r.pagos) {
      if i < |l.caja.movimientos| {
        assert MetodoOk(l.caja.movimientos[i], l.pagos);
      }
    }
  }

  lemma {:induction false} RunKeepsMethods(l: Ledger, es: seq<Evento>)
    requires MetodosOk(l)
    ensures MetodosOk(Correr(l, es))
  {
    hide Paso, MetodosOk;
    if |es| == 0 {
    } else {
      RunKeepsMethods(l, es[..|es| - 1]);
      StepKeepsMethods(Correr(l, es[..|es| - 1]), es[|es| - 1]);
    }
  }

  function Entradas(l: Ledger, es: seq<Evento>, k: nat, m: Option<nat>): int {
    if |es| == 0 then 0
    else Entradas(l, es[..|es| - 1], k, m) + Entra(Correr(l, es[..|es| - 1]), es[|es| - 1], k, m)
  }

  /** Over any run a drawer holds what it held plus everything the transactions put in, less what they took out. */
  lemma {:induction false} DrawerOverRun(l: Ledger, es: seq<Evento>, k: nat, m: Option<nat>)
    requires LedgerOk(l) && MetodosOk(l) && Cubiertas(l, es) && k < |l.caja.sesiones|
    ensures Sum(Correr(l, es).caja.movimientos, EnCajon(k, m)) == Sum(l.caja.movimientos, EnCajon(k, m)) + Entradas(l, es, k, m)
  {
    hide Paso, LedgerOk, MetodosOk, Entra, Sum, Cubierta;
    if |es| == 0 {
    } else {
      var u := es[..|es| - 1];
      DrawerOverRun(l, u, k, m);
      RunKeepsLedger(l, u);
      RunKeepsMethods(l, u);
      RunAppendsCash(l, u);
      StepMovesDrawer(Correr(l, u), es[|es| - 1], k, m);
    }
  }

  lemma StepKeepsOwner(l: Ledger, e: Evento, k: nat)
    requires k < |l.caja.sesiones|
    ensures var c := Paso(l, e).caja;
            && k < |c.sesiones| && c.sesiones[k].usuario == l.caja.sesiones[k].usuario
            && c.sesiones[k].sucursal == l.caja.sesiones[k].sucursal && c.sesiones[k].inicial == l.caja.sesiones[k].inicial
  {
    hide Repartir, Aplicar, Deshacer, RebajarTodas, Insertar, Reversas, ReversasDeVenta, Iniciales, Filter, Antes;
  }

  lemma {:induction false} RunKeepsOwner(l: Ledger, es: seq<Evento>, k: nat)
    requires k < |l.caja.sesiones|
    ensures var c := Correr(l, es).caja;
            && k < |c.sesiones| && c.sesiones[k].usuario == l.caja.sesiones[k].usuario
            && c.sesiones[k].sucursal == l.caja.sesiones[k].sucursal && c.sesiones[k].inicial == l.caja.sesiones[k].inicial
  {
    hide Paso;
    if |es| == 0 {
    } else {
      RunKeepsOwner(l, es[..|es| - 1], k);
      StepKeepsOwner(Correr(l, es[..|es| - 1]), es[|es| - 1], k);
    }
  }

  /**
   What a close expects: the balances the session was opened with, plus everything put into it and
   less everything taken out of it by whatever transactions ran in between.
   */
  lemma CloseExpects(l: Ledger, u: nat, s: nat, saldos: seq<Saldo>, es: seq<Evento>, declarados: seq<Saldo>)
    requires LedgerOk(l) && MetodosOk(l) && Abrir(l.caja, u, s, CajaHabilitada, true, saldos).Done?
    requires var a := Paso(l, EvAbrir(u, s, CajaHabilitada, true, saldos));
             Cubiertas(a, es) && Abierta(Correr(a, es).caja, |l.caja.sesiones|)
    requires NoNegativos(declarados)
    ensures var k, a := |l.caja.sesiones|, Paso(l, EvAbrir(u, s, CajaHabilitada, true, saldos));
            var r := Correr(a, es);
            var o := Cerrar(r.caja, u, s, true, declarados);
            && o.Done? && |o.state.sesiones| == |r.caja.sesiones| && !o.state.sesiones[k].abierta
            && o.state.sesiones[k].esperado == Some(Sum(saldos, MontoSaldo()) + Entradas(a, es, k, None))
            && Paso(r, EvCerrar(u, s, true, declarados)) == r.(caja := o.state)
  {
    hide Sum, RowsOk, CuentaOk, CajaOk, MetodosOk, Entradas, Correr, Cubiertas, Abrir, Cerrar;
    var k, e := |l.caja.sesiones|, EvAbrir(u, s, CajaHabilitada, true, saldos);
    var a := Paso(l, e);
    var r := Correr(a, es);
    OpeningIff(l.caja, u, s, CajaHabilitada, true, saldos);
    PasoKeepsLedgerIff(l, e);
    StepKeepsMethods(l, e);
    OpeningSum(l.caja, u, s, saldos);
    DrawerOverRun(a, es, k, None);
    RunKeepsOwner(a, es, k);
    RunKeepsLedger(a, es);
    CloseIff(r.caja, u, s, true, declarados);
    assert EsDe(r.caja, u, s, k);
    SumMatch(r.caja.movimientos, r.caja.movimientos, EnSesion(k), EnCajon(k, None));
  }

  lemma OpeningSum(c: Caja, u: nat, s: nat, saldos: seq<Saldo>)
    requires CajaOk(c) && Abrir(c, u, s, CajaHabilitada, true, saldos).Done?
    ensures Sum(Abrir(c, u, s, CajaHabilitada, true, saldos).state.movimientos, EnCajon(|c.sesiones|, None)) == Sum(saldos, MontoSaldo())
  {
    hide Sum;
    var k, ini := |c.sesiones|, Iniciales(|c.sesiones|, saldos);
    InicialesSum(k, saldos);
    InicialesRows(k, saldos);
    SumConcat(c.movimientos, ini, EnCajon(k, None));
    SumZero(c.movimientos, EnCajon(k, None));
    SumMatch(ini, ini, EnCajon(k, None), AperturaEn(k));
  }

  // ---------------------------------------------------------------- debit and credit notes

  /** b is a with one more installment at place k, due on `vence`, owing all of `total`, under the next number. */
  ghost predicate ConUnaMas(a: seq<Cuota>, b: seq<Cuota>, k: nat, vence: int, total: int) {
    && k < |b| && a == b[..k] + b[k + 1..]
    && b[k].vence == vence && b[k].saldo == b[k].original == total && b[k].pagado == 0 && b[k].estado == CuotaPendiente
    && (forall i :: 0 <= i < |a| ==> a[i].numero < b[k].numero)
    && (b[k].numero == 1 || exists i :: 0 <= i < |a| && a[i].numero + 1 == b[k].numero)
    && (forall i :: 0 <= i < k ==> a[i].vence <= vence)
    && (forall i :: k <= i < |a| ==> vence < a[i].vence)
  }

  /**
   An accepted debit note adds one installment, due on the note's date and owed in full, under the number
   after the highest, behind every installment due by then; the rest of the schedule is as it was. An
   account is opened for a sale that had none.
   */
  lemma DebitAddsInstallment(l: Ledger, ventaTotal: int, total: int, vence: int)
    requires RowsOk(l) && CuentaOk(l)
    ensures exists k :: ConUnaMas(l.cuotas, CargarDebito(l, ventaTotal, total, vence).cuotas, k, vence, total)
    ensures CargarDebito(l, ventaTotal, total, vence).cuenta
            == Some(match l.cuenta
                    case Some(c) => Cuenta(c.totalVenta + total, c.adelanto, c.saldoInicial + total,
                                           c.saldoPendiente + total, c.saldoFavor,
                                           if c.adelanto > 0 then Parcial else Pendiente)
                    case None => Cuenta(ventaTotal + total, ventaTotal, total, total, 0, Parcial))
  {
    hide ConUnaMas, CuotaOk, AplicacionOk, SinChoques, PagoOk, Insertar, NuevaCuota, Ordenadas;
    if l.cuenta.Some? {
      InsertedOnce(l.cuotas, vence, total);
      var k := Lugar(l.cuotas, NuevaCuota(l.cuotas, vence, total));
      assert ConUnaMas(l.cuotas, CargarDebito(l, ventaTotal, total, vence).cuotas, k, vence, total);
    } else {
      FirstInstallment(vence, total);
      assert l.cuotas == [];
      assert ConUnaMas(l.cuotas, CargarDebito(l, ventaTotal, total, vence).cuotas, 0, vence, total);
    }
  }

  lemma FirstInstallment(vence: int, total: int)
    ensures ConUnaMas([], [Cuota(1, vence, total, 0, total, CuotaPendiente)], 0, vence, total)
  {
  }

  lemma {:induction false} HighestIsReached(cs: seq<Cuota>)
    ensures MayorNumero(cs) == 0 || exists i :: 0 <= i < |cs| && cs[i].numero == MayorNumero(cs)
  {
    if |cs| == 0 {
    } else {
      HighestIsReached(cs[..|cs| - 1]);
    }
  }

  lemma InsertedOnce(cs: seq<Cuota>, vence: int, total: int)
    requires Ordenadas(cs)
    ensures var c := NuevaCuota(cs, vence, total); ConUnaMas(cs, Insertar(cs, c), Lugar(cs, c), vence, total)
  {
    hide Ordenadas, MayorNumero, Lugar, Insertar, AntesDe;
    MayorNumeroBounds(cs);
    HighestIsReached(cs);
    PlacedByDate(cs, NuevaCuota(cs, vence, total));
  }

  lemma PlacedByDate(cs: seq<Cuota>, c: Cuota)
    requires Ordenadas(cs) && forall i :: 0 <= i < |cs| ==> cs[i].numero < c.numero
    ensures var k, b := Lugar(cs, c), Insertar(cs, c);
            && k < |b| && cs == b[..k] + b[k + 1..] && b[k] == c
            && (forall i :: 0 <= i < k ==> cs[i].vence <= c.vence)
            && (forall i :: k <= i < |cs| ==> c.vence < cs[i].vence)
  {
    hide Ordenadas, Lugar;
    LugarSplits(cs, c);
  }

  /** Everything an accepted return writes on the account. */
  lemma NoteWrites(l: Ledger, total: nat, devolucionTotal: bool)
    requires LedgerOk(l) && l.cuenta.Some?
    ensures var r, c := AcreditarNota(l, total, devolucionTotal), l.cuenta.value;
            if c.estado == Anulada then r == l
            else
              && r.cuenta.Some?
              && var d := r.cuenta.value;
              && d.adelanto == c.adelanto && d.saldoInicial == c.saldoInicial
              && d.totalVenta == (if c.totalVenta > total then c.totalVenta - total else 0)
              && (if total <= c.saldoPendiente
                    then d.saldoPendiente == c.saldoPendiente - total && d.saldoFavor == c.saldoFavor
                    else d.saldoPendiente == 0 && d.saldoFavor == c.saldoFavor + total - c.saldoPendiente)
              && (d.estado == Anulada <==> devolucionTotal)
              && (!devolucionTotal ==> d.estado == if total < c.saldoPendiente then Parcial else Pagada)
              && r.pagos == l.pagos && r.aplicaciones == l.aplicaciones && r.caja == l.caja
  {
    hide RowsOk, CuentaOk, CashOk, RebajarTodas;
    BalanceIsNonNegative(l);
  }

  // ---------------------------------------------------------------- what notes and collections leave over a run

  predicate Acredita(l: Ledger, e: Evento) { EsNota(e) && l.cuenta.Some? && l.cuenta.value.estado != Anulada }

  /** The total of the accepted returns that met an account not annulled. */
  function Acreditado(l: Ledger, es: seq<Evento>): int {
    if |es| == 0 then 0
    else
      var m, e := Correr(l, es[..|es| - 1]), es[|es| - 1];
      Acreditado(l, es[..|es| - 1]) + if Acredita(m, e) then e.total else 0
  }

  /** The total of the accepted debit notes. */
  function Debitado(es: seq<Evento>): int {
    if |es| == 0 then 0
    else Debitado(es[..|es| - 1]) + if es[|es| - 1].EvDebito? then es[|es| - 1].total else 0
  }

  lemma StepMovesBalance(l: Ledger, e: Evento)
    requires l.cuenta.Some? && !e.EvRevertir?
    ensures Paso(l, e).cuenta.Some?
    ensures var c, d := l.cuenta.value, Paso(l, e).cuenta.value;
            && d.saldoPendiente - d.saldoFavor + Sum(Paso(l, e).pagos, CobranzaActiva())
               == c.saldoPendiente - c.saldoFavor + Sum(l.pagos, CobranzaActiva())
                  + (if e.EvDebito? then e.total else 0) - (if Acredita(l, e) then e.total else 0)
            && d.saldoInicial == c.saldoInicial + if e.EvDebito? then e.total else 0
  {
    hide Repartir, Aplicar, Deshacer, RebajarTodas, Insertar, Reversas, Abrir, Mover, Cerrar, Antes, ResolverCaja, OtraActiva, Sum, Filter;
    match e {
      case EvPago(d) =>
        var r := Registrar(l, d).After(l);
        if r != l { SumSnoc(l.pagos, r.pagos[|l.pagos|], CobranzaActiva()); }
      case EvAnular(p, vacia) =>
        if AnularPago(l, p, vacia).Done? { SumReplace(l.pagos, p, l.pagos[p].(activo := false), CobranzaActiva()); }
      case _ =>
    }
  }

  /**
   Over any run that does not end in a reversal, what is owed less the customer's credit is what was
   owed at the start, plus the debit notes, less the accepted returns and the active collections.
   */
  lemma {:induction false} NotesAreConserved(l: Ledger, es: seq<Evento>)
    requires l.cuenta.Some? && forall i :: 0 <= i < |es| ==> !es[i].EvRevertir?
    ensures Correr(l, es).cuenta.Some?
    ensures var c, r := l.cuenta.value, Correr(l, es);
            && r.cuenta.value.saldoPendiente - r.cuenta.value.saldoFavor
               == c.saldoPendiente - c.saldoFavor + Debitado(es) - Acreditado(l, es)
                  - (Sum(r.pagos, CobranzaActiva()) - Sum(l.pagos, CobranzaActiva()))
            && r.cuenta.value.saldoInicial == c.saldoInicial + Debitado(es)
  {
    hide Paso, Sum;
    if |es| == 0 {
    } else {
      NotesAreConserved(l, es[..|es| - 1]);
      StepMovesBalance(Correr(l, es[..|es| - 1]), es[|es| - 1]);
    }
  }

  /** An accepted return for more than the account's total, which stops at zero. */
  predicate Recorta(l: Ledger, e: Evento) { Acredita(l, e) && e.total > l.cuenta.value.totalVenta }

  lemma StepMovesTotal(l: Ledger, e: Evento)
    requires l.cuenta.Some?
    ensures Paso(l, e).cuenta.Some?
    ensures var t, t' := l.cuenta.value.totalVenta, Paso(l, e).cuenta.value.totalVenta;
            var asked := t + (if e.EvDebito? then e.total else 0) - (if Acredita(l, e) then e.total else 0);
            t' >= asked && (t' == asked <==> !Recorta(l, e))
  {
    hide Repartir, Aplicar, Deshacer, RebajarTodas, Insertar, Reversas, ReversasDeVenta, Abrir, Mover, Cerrar, Antes, OtraActiva, Filter;
  }

  /** The account total is what it was plus debit notes less accepted returns, exactly while none of these is cut off at zero. */
  lemma {:induction false} TotalFollowsNotesIff(l: Ledger, es: seq<Evento>)
    requires l.cuenta.Some?
    ensures Correr(l, es).cuenta.Some?
    ensures var t, t' := l.cuenta.value.totalVenta, Correr(l, es).cuenta.value.totalVenta;
            && t' >= t + Debitado(es) - Acreditado(l, es)
            && (t' == t + Debitado(es) - Acreditado(l, es) <==> Nunca(l, es, Recorta))
  {
    hide Paso, Recorta;
    if |es| == 0 {
    } else {
      hide Nunca;
      TotalFollowsNotesIff(l, es[..|es| - 1]);
      StepMovesTotal(Correr(l, es[..|es| - 1]), es[|es| - 1]);
      NuncaSnoc(l, es, Recorta);
    }
  }

  // ---------------------------------------------------------------- partial or pending

  /** Something was paid for the sale: an advance, or a collection that is still active. */
  predicate Cobrado(l: Ledger) {
    l.cuenta.Some? && (l.cuenta.value.adelanto > 0 || CobranzaViva(l.pagos))
  }

  /** The status tells a partly paid account from one nothing was paid on. */
  predicate ParcialOk(l: Ledger) {
    l.cuenta.Some? ==>
      && (l.cuenta.value.estado == Parcial ==> Cobrado(l))
      && (l.cuenta.value.estado == Pendiente ==> !Cobrado(l))
  }

  /** The writes that decide the status without looking at the collections. */
  predicate OlvidaCobros(l: Ledger, e: Evento) {
    match e
    case EvDebito(venta, _, _) =>
      if l.cuenta.Some? then l.cuenta.value.adelanto <= 0 && CobranzaViva(l.pagos) else venta <= 0 && !CobranzaViva(l.pagos)
    case EvNotaParcial(total) => Acredita(l, e) && total < l.cuenta.value.saldoPendiente && !Cobrado(l)
    case EvRestaurar =>
      l.cuenta.Some? && l.cuenta.value.estado == AnulacionPendiente && l.cuenta.value.saldoPendiente != 0
      && l.cuenta.value.adelanto <= 0 && CobranzaViva(l.pagos)
    case EvFijarEstado(x) => l.cuenta.Some? && ((x == Parcial && !Cobrado(l)) || (x == Pendiente && Cobrado(l)))
    case _ => false
  }

  lemma PaymentIsLive(l: Ledger, d: PagoDto)
    requires Registrar(l, d).Done? && Registrar(l, d).state != l
    ensures var r := Registrar(l, d).state; CobranzaViva(r.pagos) && r.cuenta.Some? && r.cuenta.value.estado != Pendiente
  {
    hide Repartir, Aplicar, Antes, ResolverCaja;
    var r := Registrar(l, d).state;
    assert r.pagos[|l.pagos|].cobranza && r.pagos[|l.pagos|].activo;
  }

  lemma StepKeepsParcialIff(l: Ledger, e: Evento)
    requires ParcialOk(l)
    ensures ParcialOk(Paso(l, e)) <==> !OlvidaCobros(l, e)
  {
    hide Registrar, AnularPago, RebajarTodas, Insertar, ReversasDeVenta, Abrir, Mover, Cerrar, CobranzaViva;
    match e {
      case EvPago(d) => if Registrar(l, d).Done? && Registrar(l, d).state != l { PaymentIsLive(l, d); }
      case EvAnular(p, vacia) =>
        if AnularPago(l, p, vacia).Done? { AnnulmentIff(l, p, vacia); AnnulmentIff(l, p, false); SameAnnulment(l, p, vacia); AnnulmentWrites(l, p); }
      case _ =>
    }
  }

  lemma SameAnnulment(l: Ledger, p: nat, vacia: bool)
    requires AnularPago(l, p, vacia).Done?
    ensures AnularPago(l, p, vacia) == AnularPago(l, p, false)
  {
  }

  /**
   At every point of a run the account is partial only when something was paid and pending only when
   nothing was, exactly while no debit note or restore falls on an account whose only payments are
   collections, no partial return leaves a balance where nothing was paid, and no late restore
   writes a status that has ceased to hold.
   */
  lemma ParcialStandsIff(l: Ledger, es: seq<Evento>)
    requires ParcialOk(l)
    ensures Siempre(l, es, ParcialOk) <==> Nunca(l, es, OlvidaCobros)
  {
    hide Paso, ParcialOk, OlvidaCobros, Siempre, Nunca;
    forall m, e | ParcialOk(m) ensures ParcialOk(Paso(m, e)) <==> !OlvidaCobros(m, e) { StepKeepsParcialIff(m, e); }
    StandsIff(l, es, ParcialOk, OlvidaCobros);
  }
}
