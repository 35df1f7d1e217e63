/**
 The commercial reversal of a voided sale: what it leaves behind, and what it does when other
 transactions commit between its read and its writes, another reversal among them.
 */
module VoidReversal {
  import opened Sums
  import opened Wrappers
  import opened CashRegister
  import opened Receivable
  import opened ReceivableLaws
  import opened ReceivableStates
  import opened VoidSaga
  import R = ReceivableRuns

  function AbiertoDePago(c: Caja, p: nat): Movimiento -> int {
    (m: Movimiento) => if m.pago == Some(p) && Abierta(c, m.sesion) then m.monto else 0
  }

  /** The reversal nets the open-session cash of every payment that was active to zero. */
  lemma ReversalNetsCash(l: Ledger, p: nat)
    requires LedgerOk(l) && p < |l.pagos| && l.pagos[p].activo
    ensures var r := Revertir(l);
            Sum(r.caja.movimientos, AbiertoDePago(r.caja, p)) == 0
  {
    hide RowsOk, CuentaOk, Filter, Sum, CajaOk;
    var r, movs := Revertir(l), l.caja.movimientos;
    var vivos, nuevos := Filter(movs, Reversible(l)), ReversasDeVenta(l);
    var f := AbiertoDePago(r.caja, p);
    SumConcat(movs, nuevos, f);
    forall i | 0 <= i < |movs| ensures f(movs[i]) == if Reversible(l)(movs[i]) then f(movs[i]) else 0 {
      assert MovimientoOk(movs[i], l.pagos);
    }
    SumFilter(movs, Reversible(l), f, f);
    var neg := (m: Movimiento) => -f(m);
    SumMatch(nuevos, vivos, f, neg);
    SumNegate(vivos, f, neg);
  }

  /** Everything the acceptance of a void leaves behind. */
  lemma ReversalSettlesLedger(l: Ledger)
    requires LedgerOk(l)
    ensures var r := Revertir(l);
            && LedgerOk(r)
            && (r.cuenta.Some? ==> r.cuenta.value.saldoPendiente == 0 && r.cuenta.value.estado == Anulada)
            && (forall i :: 0 <= i < |r.cuotas| ==> r.cuotas[i].saldo == 0)
            && (forall p :: 0 <= p < |r.pagos| ==> !r.pagos[p].activo)
            && (forall d: PagoDto :: r.cuenta.Some? ==> Registrar(r, d) == Done(r) || Registrar(r, d).Refused?)
            && (forall p: nat :: AnularPago(r, p, false).Refused?)
  {
    RevertirKeepsLedger(l);
  }

  /**
   A debit note accepted after the sale was reversed opens the annulled account again: it owes the
   note's total and takes payments.
   */
  lemma LateDebitNoteReopens(l: Ledger, ventaTotal: int, total: int, vence: int)
    requires LedgerOk(l) && l.cuenta.Some? && total > 0
    ensures var r := CargarDebito(Revertir(l), ventaTotal, total, vence);
            && LedgerOk(r)
            && r.cuenta.value.saldoPendiente == total
            && r.cuenta.value.estado in {Pendiente, Parcial}
            && forall d: PagoDto ::
                 d.monto == total && d.recibido.None? && d.metodo.Some? && d.caja.SinSucursal?
                 && !Repetido(r.pagos, d.requestId)
                 ==> Registrar(r, d).Done?
  {
    RevertirKeepsLedger(l);
    var v := Revertir(l);
    DebitoKeepsLedger(v, ventaTotal, total, vence);
    var r := CargarDebito(v, ventaTotal, total, vence);
    forall d: PagoDto | d.monto == total && d.recibido.None? && d.metodo.Some? && d.caja.SinSucursal?
                        && !Repetido(r.pagos, d.requestId)
      ensures Registrar(r, d).Done?
    {
      ConflictUnreachable(r, d);
    }
  }

  /** So does a void request that passed its checks before the reversal and writes after it. */
  lemma LateRequestReopens(s: Saga, w: nat, now: int)
    requires FaseDe(s, w) == Pidiendo && EstaAnulada(s.t.l)
    ensures EnEspera(Paso(s, EscribePedido(w, now)).t.l)
  {
  }

  // ---------------------------------------------------------------- read and writes apart

  function RevertirLeido(l: Ledger, leido: Ledger): Ledger {
    Ledger(
      if leido.cuenta.None? || l.cuenta.None? then l.cuenta
      else Some(l.cuenta.value.(estado := Anulada, saldoPendiente := 0)),
      if leido.cuenta.None? then l.cuotas
      else seq(|l.cuotas|, k requires 0 <= k < |l.cuotas| => l.cuotas[k].(estado := CuotaAnulada, saldo := 0)),
      seq(|l.pagos|, k requires 0 <= k < |l.pagos| => l.pagos[k].(activo := false)),
      l.aplicaciones,
      Agregar(l.caja, ReversasDeVenta(leido)))
  }

  /** The writes on t of a finalising transaction that read `leido`: it locks neither the sale nor its rows. */
  function FinalizarLeido(t: Tablas, leido: Tablas): Tablas {
    if leido.venta.estado == VentaAnulada then t
    else t.(l := RevertirLeido(t.l, leido.l),
            stock := if leido.venta.conSucursal then Reponer(t.stock, leido.detalles) else t.stock,
            venta := t.venta.(estado := VentaAnulada))
  }

  /**
   What a stale finalise leaves of the rows it does not decide: nothing changes if it read the sale as
   annulled; otherwise every other column is as it is now, not as it was read, and stock gets what the
   lines read say, on top of what it holds.
   */
  lemma StaleFinaliseWrites(t: Tablas, leido: Tablas, v: nat)
    ensures var r := FinalizarLeido(t, leido);
            if leido.venta.estado == VentaAnulada then r == t
            else
              && r.venta == t.venta.(estado := VentaAnulada) && r.job == t.job && r.detalles == t.detalles
              && Existencia(r.stock, v) == Existencia(t.stock, v) + (if leido.venta.conSucursal then Vendido(leido, v) else 0)
              && (!leido.venta.conSucursal ==> r.stock == t.stock)
              && r.l.aplicaciones == t.l.aplicaciones && r.l.caja.sesiones == t.l.caja.sesiones
              && (t.l.cuenta.Some? && leido.l.cuenta.Some? ==>
                    r.l.cuenta == Some(t.l.cuenta.value.(estado := Anulada, saldoPendiente := 0)))
  {
    hide Reponer, ReversasDeVenta;
    ReponerAdds(t.stock, leido.detalles, v);
  }

  lemma FreshReadIsFinalizar(t: Tablas)
    ensures FinalizarLeido(t, t) == Finalizar(t)
  {
  }

  // ---------------------------------------------------------------- a run between the read and the writes

  /** The rows of p in a session that is open in both. */
  function AbiertoEnAmbas(a: Caja, b: Caja, p: nat): Movimiento -> int {
    (m: Movimiento) => if m.pago == Some(p) && Abierta(a, m.sesion) && Abierta(b, m.sesion) then m.monto else 0
  }

  /** What the reversal rows take out of the open sessions for p: what was read there, where it is still open. */
  lemma StaleReversalRows(l: Ledger, leido: Ledger, p: nat)
    requires CashOk(leido)
    ensures Sum(ReversasDeVenta(leido), AbiertoDePago(l.caja, p))
            == if p < |leido.pagos| && leido.pagos[p].activo
               then -Sum(leido.caja.movimientos, AbiertoEnAmbas(leido.caja, l.caja, p)) else 0
  {
    hide CajaOk, Filter, Sum;
    var movs, f := leido.caja.movimientos, AbiertoDePago(l.caja, p);
    var vivos, nuevos := Filter(movs, Reversible(leido)), ReversasDeVenta(leido);
    var neg := (m: Movimiento) => -f(m);
    var g := (m: Movimiento) => if Reversible(leido)(m) then f(m) else 0;
    SumMatch(nuevos, vivos, f, neg);
    SumNegate(vivos, f, neg);
    SumFilter(movs, Reversible(leido), f, g);
    if p < |leido.pagos| && leido.pagos[p].activo {
      forall i | 0 <= i < |movs| ensures g(movs[i]) == AbiertoEnAmbas(leido.caja, l.caja, p)(movs[i]) {
        assert MovimientoOk(movs[i], leido.pagos);
      }
      SumMatch(movs, movs, g, AbiertoEnAmbas(leido.caja, l.caja, p));
    } else {
      SumZero(movs, g);
    }
  }

  /** The open-session cash of a payment after the writes: a payment not read as active keeps all of it. */
  lemma StaleReversalCash(l: Ledger, leido: Ledger, p: nat)
    requires CashOk(leido)
    ensures var r := RevertirLeido(l, leido);
            Sum(r.caja.movimientos, AbiertoDePago(r.caja, p))
            == Sum(l.caja.movimientos, AbiertoDePago(l.caja, p))
               - (if p < |leido.pagos| && leido.pagos[p].activo
                  then Sum(leido.caja.movimientos, AbiertoEnAmbas(leido.caja, l.caja, p)) else 0)
  {
    hide CashOk, ReversasDeVenta, Sum;
    var r := RevertirLeido(l, leido);
    StaleReversalRows(l, leido, p);
    SumConcat(l.caja.movimientos, ReversasDeVenta(leido), AbiertoDePago(l.caja, p));
    SameSessions(l.caja, r.caja, p);
    SumMatch(r.caja.movimientos, r.caja.movimientos, AbiertoDePago(r.caja, p), AbiertoDePago(l.caja, p));
  }

  lemma SameSessions(c: Caja, r: Caja, p: nat)
    requires c.sesiones == r.sesiones
    ensures forall m :: AbiertoDePago(r, p)(m) == AbiertoDePago(c, p)(m)
  {
  }

  lemma ReversalRowsAreOfPayments(leido: Ledger)
    requires CashOk(leido)
    ensures forall k :: 0 <= k < |ReversasDeVenta(leido)| ==>
              var m := ReversasDeVenta(leido)[k];
              m.tipo == AnulacionVenta && m.sesion < |leido.caja.sesiones| && m.pago.Some? && m.pago.value < |leido.pagos|
  {
    hide Filter;
    var movs, vivos := leido.caja.movimientos, Filter(leido.caja.movimientos, Reversible(leido));
    FilterMembers(movs, Reversible(leido));
    forall k | 0 <= k < |vivos| ensures Reversible(leido)(vivos[k]) && vivos[k].sesion < |leido.caja.sesiones| {
      var i :| 0 <= i < |movs| && movs[i] == vivos[k];
    }
  }

  /** The cash laws survive exactly when, in each session closed since, the reversal rows add up to nothing. */
  lemma StaleReversalKeepsCashIff(l: Ledger, leido: Ledger)
    requires CashOk(leido) && CashOk(l)
    requires |leido.caja.sesiones| <= |l.caja.sesiones| && |leido.pagos| <= |l.pagos|
    ensures CashOk(RevertirLeido(l, leido)) <==> NadaEnCerradas(l.caja, ReversasDeVenta(leido))
  {
    hide CajaOk, NadaEnCerradas, ReversasDeVenta;
    var r, nuevos := RevertirLeido(l, leido), ReversasDeVenta(leido);
    ReversalRowsAreOfPayments(leido);
    AppendKeepsCajaIff(l.caja, nuevos);
    forall i | 0 <= i < |r.caja.movimientos| ensures MovimientoOk(r.caja.movimientos[i], r.pagos) {
      if i < |l.caja.movimientos| { assert MovimientoOk(l.caja.movimientos[i], l.pagos); }
    }
  }

  /** No active collection is applied to an installment. */
  ghost predicate SinCobros(l: Ledger) {
    forall i :: 0 <= i < |l.aplicaciones| ==> !Activo(l, l.aplicaciones[i].pago)
  }

  predicate Activo(l: Ledger, p: nat) { p < |l.pagos| && l.pagos[p].activo }

  /** Rows and balance survive exactly when the account was read, or opened since without a collection. */
  lemma StaleReversalKeepsRowsIff(l: Ledger, leido: Ledger)
    requires RowsOk(l) && CuentaOk(l) && (leido.cuenta.Some? ==> l.cuenta.Some?)
    ensures RowsOk(RevertirLeido(l, leido)) && CuentaOk(RevertirLeido(l, leido)) <==> leido.cuenta.Some? || SinCobros(l)
  {
    hide ReversasDeVenta, CuotaOk, SinChoques;
    var r := RevertirLeido(l, leido);
    if leido.cuenta.Some? {
      RevertirRows(l);
      SameRowsOk(Revertir(l), r);
      SumZero(r.cuotas, SaldoDe());
    } else {
      UnreadAccountRowsIff(l, r);
    }
  }

  /** Payments made inactive over installments that stay as they are. */
  lemma UnreadAccountRowsIff(l: Ledger, r: Ledger)
    requires RowsOk(l) && r.cuotas == l.cuotas && r.aplicaciones == l.aplicaciones && |r.pagos| == |l.pagos|
    requires forall p :: 0 <= p < |l.pagos| ==> r.pagos[p] == l.pagos[p].(activo := false)
    ensures RowsOk(r) <==> SinCobros(l)
  {
    hide CuotaOk, SinChoques;
    forall i | 0 <= i < |l.aplicaciones|
      ensures AplicacionOk(r.aplicaciones[i], r.cuotas, r.pagos) <==> !Activo(l, l.aplicaciones[i].pago)
    {
      var a := l.aplicaciones[i];
      assert AplicacionOk(a, l.cuotas, l.pagos);
      var j :| 0 <= j < |l.cuotas| && l.cuotas[j].numero == a.cuota && Viva(l.cuotas[j]) == l.pagos[a.pago].activo;
    }
  }

  lemma SameRowsOk(m: Ledger, r: Ledger)
    requires RowsOk(m) && r.cuotas == m.cuotas && r.pagos == m.pagos && r.aplicaciones == m.aplicaciones
    ensures RowsOk(r)
  {
  }

  /**
   Read, any run of other transactions, then the writes of a reversal. The open-session cash of a
   payment read as active nets to zero exactly when it is what was read where the session is still
   open; a payment made since keeps its cash though it is made inactive; and the ledger is consistent
   exactly when nothing is written into a session closed since, and the account was read or has no
   collections.
   */
  lemma StaleReversalOverRun(leido: Ledger, es: seq<R.Evento>, p: nat)
    requires LedgerOk(leido) && R.Cubiertas(leido, es)
    ensures var l := R.Correr(leido, es);
            var r := RevertirLeido(l, leido);
            && (p < |leido.pagos| && leido.pagos[p].activo ==>
                  (Sum(r.caja.movimientos, AbiertoDePago(r.caja, p)) == 0 <==>
                     Sum(l.caja.movimientos, AbiertoDePago(l.caja, p))
                     == Sum(leido.caja.movimientos, AbiertoEnAmbas(leido.caja, l.caja, p))))
            && (|leido.pagos| <= p < |l.pagos| ==>
                  && !r.pagos[p].activo
                  && Sum(r.caja.movimientos, AbiertoDePago(r.caja, p)) == Sum(l.caja.movimientos, AbiertoDePago(l.caja, p)))
            && (LedgerOk(r) <==>
                  NadaEnCerradas(l.caja, ReversasDeVenta(leido)) && (leido.cuenta.Some? || SinCobros(l)))
  {
    hide RowsOk, CuentaOk, CashOk, NadaEnCerradas, ReversasDeVenta, SinCobros, Sum, R.Correr, R.Cubiertas;
    var l := R.Correr(leido, es);
    R.RunKeepsLedger(leido, es);
    R.RunAppendsCash(leido, es);
    R.RunKeepsPayments(leido, es);
    StaleReversalCash(l, leido, p);
    StaleReversalKeepsCashIff(l, leido);
    StaleReversalKeepsRowsIff(l, leido);
  }

  /** A collection that commits in between is made inactive while its money stays in the drawer. */
  lemma PaymentUnderReversal(l: Ledger, d: PagoDto)
    requires LedgerOk(l) && Registrar(l, d).Done? && Registrar(l, d).state != l && d.caja.ModoCaja?
    ensures var m, p := Registrar(l, d).state, |l.pagos|;
            var r := RevertirLeido(m, l);
            && p < |r.pagos| && !r.pagos[p].activo
            && Sum(r.caja.movimientos, AbiertoDePago(r.caja, p)) == d.monto > 0
  {
    hide RowsOk, CuentaOk, CajaOk, Aplicar, Repartir, Antes, ReversasDeVenta, Sum;
    var m, p := Registrar(l, d).state, |l.pagos|;
    var f := AbiertoDePago(m.caja, p);
    StaleReversalCash(m, l, p);
    forall i | 0 <= i < |l.caja.movimientos| ensures f(l.caja.movimientos[i]) == 0 {
      assert MovimientoOk(l.caja.movimientos[i], l.pagos);
    }
    SumZero(l.caja.movimientos, f);
    SumSnoc(l.caja.movimientos, m.caja.movimientos[|l.caja.movimientos|], f);
  }

  /**
   The same for the whole transaction and for stock: what the other processes and credit notes of the
   void did in between is kept, and the sale is given back on top, so it comes back once exactly when
   no other reversal and no note did the same.
   */
  lemma StaleFinaliseOverRun(s: Saga, es: seq<Evento>, v: nat)
    requires LedgerOk(s.t.l) && !YaAnulada(s) && s.t.venta.conSucursal && R.Cubiertas(s.t.l, Historia(s, es))
    ensures var t := Correr(s, es).t;
            var r := FinalizarLeido(t, s.t);
            && r.l == RevertirLeido(R.Correr(s.t.l, Historia(s, es)), s.t.l)
            && (LedgerOk(r.l) <==>
                  NadaEnCerradas(t.l.caja, ReversasDeVenta(s.t.l)) && (s.t.l.cuenta.Some? || SinCobros(t.l)))
            && Existencia(r.stock, v)
               == Existencia(s.t.stock, v) + Devuelto(es, v) + (Contar(s, es, EsReversion) + 1) * Vendido(s.t, v)
            && (Vendido(s.t, v) > 0 && Devuelto(es, v) >= 0 ==>
                  (Existencia(r.stock, v) == Existencia(s.t.stock, v) + Vendido(s.t, v) <==>
                     Contar(s, es, EsReversion) == 0 && Devuelto(es, v) == 0))
  {
    hide LedgerOk, NadaEnCerradas, ReversasDeVenta, SinCobros, Sum, R.Correr, R.Cubiertas, RevertirLeido, Correr;
    hide Contar, Devuelto, Existencia, Reponer, Historia;
    SagaIsLedgerRun(s, es);
    StaleReversalOverRun(s.t.l, Historia(s, es), 0);
    StockIsAccounted(s, es, v);
    ReponerAdds(Correr(s, es).t.stock, s.t.detalles, v);
    OnceMore(Contar(s, es, EsReversion), Vendido(s.t, v), Devuelto(es, v));
  }

  lemma OnceMore(n: nat, x: int, d: int)
    ensures (n + 1) * x == n * x + x
    ensures x > 0 && d >= 0 ==> (d + (n + 1) * x == x <==> n == 0 && d == 0)
  {
    if x > 0 && n > 0 { assert n * x == x + (n - 1) * x && (n - 1) * x >= 0; }
  }

  // ---------------------------------------------------------------- two reversals at once

  lemma OverlapReversesCashAgain(l: Ledger, p: nat)
    requires LedgerOk(l) && p < |l.pagos| && l.pagos[p].activo
    ensures var r := RevertirLeido(Revertir(l), l);
            Sum(r.caja.movimientos, AbiertoDePago(r.caja, p)) == -Sum(l.caja.movimientos, AbiertoDePago(l.caja, p))
  {
    hide Filter, Sum, RowsOk, CuentaOk, CashOk, ReversasDeVenta;
    var m := Revertir(l);
    ReversalNetsCash(l, p);
    StaleReversalCash(m, l, p);
    SumMatch(l.caja.movimientos, l.caja.movimientos, AbiertoEnAmbas(l.caja, m.caja, p), AbiertoDePago(l.caja, p));
  }

  /**
   Two finalising transactions that both read the sale before either commits reverse it twice: stock
   has the sale twice and the drawer is short of what each payment had brought, while every row law
   holds. Nothing goes wrong exactly where nothing was sold or collected.
   */
  lemma OverlappingReversals(t: Tablas, v: nat, p: nat)
    requires LedgerOk(t.l) && t.venta.estado != VentaAnulada && t.venta.conSucursal
    ensures var one, two := Finalizar(t), FinalizarLeido(Finalizar(t), t);
            && Existencia(two.stock, v) == Existencia(t.stock, v) + 2 * Vendido(t, v)
            && (Existencia(two.stock, v) == Existencia(one.stock, v) <==> Vendido(t, v) == 0)
            && LedgerOk(two.l)
            && (p < |t.l.pagos| && t.l.pagos[p].activo ==>
                  && Sum(one.l.caja.movimientos, AbiertoDePago(one.l.caja, p)) == 0
                  && Sum(two.l.caja.movimientos, AbiertoDePago(two.l.caja, p))
                     == -Sum(t.l.caja.movimientos, AbiertoDePago(t.l.caja, p)))
  {
    hide LedgerOk, Reponer, Revertir, RevertirLeido, Sum;
    var one := Finalizar(t);
    ReponerAdds(t.stock, t.detalles, v);
    ReponerAdds(one.stock, t.detalles, v);
    if p < |t.l.pagos| && t.l.pagos[p].activo {
      ReversalNetsCash(t.l, p);
      OverlapReversesCashAgain(t.l, p);
    }
    OverlapKeepsLedger(t.l);
  }

  lemma OverlapKeepsLedger(l: Ledger)
    requires LedgerOk(l)
    ensures LedgerOk(RevertirLeido(Revertir(l), l))
  {
    hide RowsOk, CuentaOk, CajaOk, MovimientoOk, Sum, ReversasDeVenta;
    var m, nuevos := Revertir(l), ReversasDeVenta(l);
    RevertirKeepsLedger(l);
    StaleReversalKeepsRowsIff(m, l);
    StaleReversalKeepsCashIff(m, l);
    NothingInClosed(l);
    if l.cuenta.None? { NothingApplied(l, m); }
  }

  /** On a fresh read no reversal row meets a closed session. */
  lemma NothingInClosed(l: Ledger)
    ensures NadaEnCerradas(l.caja, ReversasDeVenta(l))
  {
    FilterMembers(l.caja.movimientos, Reversible(l));
    forall s | 0 <= s < |l.caja.sesiones| && !l.caja.sesiones[s].abierta ensures Sum(ReversasDeVenta(l), EnSesion(s)) == 0 {
      SumZero(ReversasDeVenta(l), EnSesion(s));
    }
  }

  lemma NothingApplied(l: Ledger, m: Ledger)
    requires CuentaOk(l) && l.cuenta.None? && m.aplicaciones == l.aplicaciones
    ensures SinCobros(m)
  {
  }

  // ---------------------------------------------------------------- apply and finalizeCommercialAnnul as written

  class VoidTables {
    var l: Ledger
    var venta: Venta
    var detalles: seq<Detalle>
    var stock: map<nat, int>
    var job: Option<Job>

    ghost function Rows(): Tablas
      reads this
    {
      Tablas(l, venta, detalles, stock, job)
    }

    constructor (t: Tablas)
      ensures Rows() == t
    {
      l, venta, detalles, stock, job := t.l, t.venta, t.detalles, t.stock, t.job;
    }

    method FinalizeCommercialAnnul()
      modifies this
      ensures Rows() == Finalizar(old(Rows()))
    {
      if venta.estado == VentaAnulada { return; }
      var vivos := Filter(l.caja.movimientos, Reversible(l));
      var contra := [];
      for i := 0 to |vivos|
        invariant |contra| == i && unchanged(this)
        invariant forall k :: 0 <= k < i ==> contra[k] == Contra(vivos[k])
      {
        contra := contra + [vivos[i].(tipo := AnulacionVenta, monto := -vivos[i].monto)];
      }
      assert contra == ReversasDeVenta(l);
      if venta.conSucursal {
        var n := 0;
        while n < |detalles|
          invariant 0 <= n <= |detalles|
          invariant stock == Reponer(old(stock), detalles[..n])
          invariant l == old(l) && venta == old(venta) && detalles == old(detalles) && job == old(job)
        {
          assert detalles[..n + 1][..n] == detalles[..n];
          var d := detalles[n];
          stock := stock[d.variante := Existencia(stock, d.variante) + d.cantidad];
          n := n + 1;
        }
        assert detalles[..n] == detalles;
      }
      var pagos := [];
      for i := 0 to |l.pagos|
        invariant |pagos| == i && l == old(l) && venta == old(venta) && detalles == old(detalles) && job == old(job)
        invariant stock == if venta.conSucursal then Reponer(old(stock), detalles) else old(stock)
        invariant forall k :: 0 <= k < i ==> pagos[k] == l.pagos[k].(activo := false)
      {
        pagos := pagos + [l.pagos[i].(activo := false)];
      }
      var r := Revertir(l);
      assert pagos == r.pagos;
      l := Ledger(r.cuenta, r.cuotas, pagos, l.aplicaciones, l.caja.(movimientos := l.caja.movimientos + contra));
      venta := venta.(estado := VentaAnulada);
    }

    method Apply(d: Entrega)
      modifies this
      ensures Rows() == AplicarBaja(old(Rows()), d)
    {
      if venta.bajaAt.Some? && venta.bajaAt.value > d.updatedAt { return; }
      venta := venta.(solicitud := Some(d.id), bajaAt := Some(d.updatedAt), baja := EstadoBaja(d.estado));
      if d.estado == ACCEPTED {
        FinalizeCommercialAnnul();
      }
      if d.estado == REJECTED || d.estado == FAILED {
        if l.cuenta.Some? && l.cuenta.value.estado == AnulacionPendiente {
          l := l.(cuenta := Some(l.cuenta.value.(estado := EstadoRestaurado(l.cuenta.value))));
        }
      }
    }
  }
}
