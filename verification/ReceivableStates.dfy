/** The state column of the account, and what a payment or a credit note does with every cent. */
module ReceivableStates {
  import opened Sums
  import opened Wrappers
  import opened CashRegister
  import opened Receivable
  import opened ReceivableLaws
  import opened ReceivableRuns

  /** The account is paid exactly when nothing is owed, unless a void is pending or done. */
  ghost predicate EstadoDeCuentaOk(l: Ledger) {
    l.cuenta.Some? ==>
      var c := l.cuenta.value;
      && (c.estado == Pagada || c.estado == Anulada ==> c.saldoPendiente == 0)
      && (c.estado == Pendiente || c.estado == Parcial ==> c.saldoPendiente > 0)
      && (c.estado == Pendiente ==> c.adelanto <= 0)
  }

  lemma PasoKeepsEstado(l: Ledger, e: Evento)
    requires LedgerOk(l) && EstadoDeCuentaOk(l) && (e.EvDebito? ==> e.total > 0) && Cubierta(l, e) && !e.EvFijarEstado?
    ensures EstadoDeCuentaOk(Paso(l, e))
  {
    hide CashOk, Reversas, ReversasDeVenta, Aplicar, Repartir, Deshacer, RebajarTodas, Insertar, Filter;
    if l.cuenta.Some? { BalanceIsNonNegative(l); }
    if e.EvAnular? && e.pago < |l.pagos| { assert PagoOk(l.pagos, l.aplicaciones, e.pago); }
  }

  /** Over any run the state column follows the balance: paid exactly when nothing is owed. */
  lemma {:induction false} EstadoFollowsBalance(l: Ledger, es: seq<Evento>)
    requires LedgerOk(l) && EstadoDeCuentaOk(l) && Cubiertas(l, es)
    requires forall i :: 0 <= i < |es| ==> (es[i].EvDebito? ==> es[i].total > 0) && !es[i].EvFijarEstado?
    ensures EstadoDeCuentaOk(Correr(l, es))
  {
    hide Paso, LedgerOk, EstadoDeCuentaOk, Cubierta;
    if |es| == 0 {
    } else {
      var u := es[..|es| - 1];
      EstadoFollowsBalance(l, u);
      RunKeepsLedger(l, u);
      PasoKeepsEstado(Correr(l, u), es[|es| - 1]);
    }
  }

  /** A status written with no regard to the balance it meets. */
  ghost predicate RompeEstado(l: Ledger, e: Evento) {
    || Descubierta(l, e)
    || (e.EvDebito? && e.total == 0 && (l.cuenta.None? || l.cuenta.value.saldoPendiente == 0))
    || (e.EvFijarEstado? && !EstadoDeCuentaOk(FijarEstado(l, e.estado)))
  }

  ghost predicate LedgerYEstado(l: Ledger) { LedgerOk(l) && EstadoDeCuentaOk(l) }

  lemma PasoKeepsEstadoIff(l: Ledger, e: Evento)
    requires LedgerYEstado(l)
    ensures LedgerYEstado(Paso(l, e)) <==> !RompeEstado(l, e)
  {
    hide RowsOk, CuentaOk, CashOk, Insertar;
    PasoKeepsLedgerIff(l, e);
    if l.cuenta.Some? { BalanceIsNonNegative(l); }
    if Cubierta(l, e) && !e.EvFijarEstado? && (e.EvDebito? ==> e.total > 0) { PasoKeepsEstado(l, e); }
  }

  /**
   At every point of a run the ledger is consistent and the status follows the balance exactly while
   total returns cover what is owed, no debit note of nothing falls on a settled account, and no
   late restore writes a status the balance has left.
   */
  lemma EstadoStandsIff(l: Ledger, es: seq<Evento>)
    requires LedgerYEstado(l)
    ensures Siempre(l, es, LedgerYEstado) <==> Nunca(l, es, RompeEstado)
  {
    hide Paso, LedgerYEstado, RompeEstado, Siempre, Nunca;
    forall m, e | LedgerYEstado(m) ensures LedgerYEstado(Paso(m, e)) <==> !RompeEstado(m, e) { PasoKeepsEstadoIff(m, e); }
    StandsIff(l, es, LedgerYEstado, RompeEstado);
  }

  lemma PasoKeepsAdelanto(l: Ledger, e: Evento)
    requires l.cuenta.Some?
    ensures Paso(l, e).cuenta.Some? && Paso(l, e).cuenta.value.adelanto == l.cuenta.value.adelanto
  {
    hide Reversas, ReversasDeVenta, Aplicar, Repartir, Deshacer, RebajarTodas, Insertar, Filter, Abrir, Mover, Cerrar, Antes;
  }

  lemma {:induction false} RunKeepsAdelanto(l: Ledger, es: seq<Evento>)
    requires l.cuenta.Some?
    ensures Correr(l, es).cuenta.Some? && Correr(l, es).cuenta.value.adelanto == l.cuenta.value.adelanto
  {
    hide Paso;
    if |es| == 0 {
    } else {
      RunKeepsAdelanto(l, es[..|es| - 1]);
      PasoKeepsAdelanto(Correr(l, es[..|es| - 1]), es[|es| - 1]);
    }
  }

  /**
   A restore that reads the account, lets any run pass and writes the status it computed: the status
   agrees with the balance exactly when the balance was zero at both ends or at neither.
   */
  lemma RestoreKeepsEstadoIff(l: Ledger, es: seq<Evento>)
    requires LedgerOk(l) && l.cuenta.Some? && Cubiertas(l, es)
    ensures var r := Correr(l, es);
            && r.cuenta.Some?
            && (EstadoDeCuentaOk(FijarEstado(r, EstadoRestaurado(l.cuenta.value))) <==>
                  (r.cuenta.value.saldoPendiente == 0 <==> l.cuenta.value.saldoPendiente == 0))
  {
    hide LedgerOk;
    RunKeepsLedger(l, es);
    RunKeepsAdelanto(l, es);
    BalanceIsNonNegative(Correr(l, es));
  }

  /** Every cent handed over is collected or given back as change, and only methods that allow it give change. */
  lemma ChangeIsExact(l: Ledger, d: PagoDto)
    requires Registrar(l, d).Done? && Registrar(l, d).state != l
    ensures var p := Registrar(l, d).state.pagos[|l.pagos|];
            && Recibido(d) == p.monto + p.vuelto && p.monto == d.monto > 0 && p.vuelto >= 0
            && (p.vuelto > 0 ==> d.metodo.Some? && d.metodo.value.permiteVuelto)
  {
    hide Aplicar, Repartir, Antes, ResolverCaja;
  }

  /** Every cent of an accepted return lowers the balance or becomes the customer's credit. */
  lemma NotaIsFullyUsed(l: Ledger, total: nat, devolucionTotal: bool)
    requires LedgerOk(l) && l.cuenta.Some? && l.cuenta.value.estado != Anulada
    ensures var c, r := l.cuenta.value, AcreditarNota(l, total, devolucionTotal).cuenta.value;
            && (c.saldoPendiente - r.saldoPendiente) + (r.saldoFavor - c.saldoFavor) == total
            && 0 <= r.saldoPendiente <= c.saldoPendiente && r.saldoFavor >= c.saldoFavor
            && (r.saldoFavor > c.saldoFavor ==> r.saldoPendiente == 0)
  {
    BalanceIsNonNegative(l);
  }

  // ---------------------------------------------------------------- the hold of a pending void

  predicate EnEspera(l: Ledger) { l.cuenta.Some? && l.cuenta.value.estado == AnulacionPendiente }

  /** The transactions that write another status over a pending void. */
  predicate Levanta(l: Ledger, e: Evento) {
    match e
    case EvAnular(p, vacia) => AnularPago(l, p, vacia).Done?
    case EvDebito(_, _, _) => true
    case EvNotaParcial(_) => true
    case EvNotaTotal(_) => true
    case EvRestaurar => true
    case EvRevertir => true
    case EvFijarEstado(x) => x != AnulacionPendiente
    case _ => false
  }

  lemma PasoKeepsHoldIff(l: Ledger, e: Evento)
    requires EnEspera(l)
    ensures EnEspera(Paso(l, e)) <==> !Levanta(l, e)
  {
    hide Reversas, ReversasDeVenta, Deshacer, RebajarTodas, Insertar, Filter, Antes, EnCajaCerrada, OtraActiva;
  }

  /**
   A requested void holds the account exactly until one of these falls on it: an annulment that is
   not refused, an accepted debit or return note, a restore, the reversal, or a late status write.
   */
  lemma HoldStandsIff(l: Ledger, es: seq<Evento>)
    requires EnEspera(l)
    ensures Siempre(l, es, EnEspera) <==> Nunca(l, es, Levanta)
  {
    hide Paso, EnEspera, Levanta, Siempre, Nunca;
    forall m, e | EnEspera(m) ensures EnEspera(Paso(m, e)) <==> !Levanta(m, e) { PasoKeepsHoldIff(m, e); }
    StandsIff(l, es, EnEspera, Levanta);
  }

  /** A new request id for money the account owes, by a method the branch takes without a cash session. */
  predicate Corriente(l: Ledger, d: PagoDto) {
    && l.cuenta.Some? && 0 < d.monto <= l.cuenta.value.saldoPendiente
    && d.recibido.None? && d.metodo.Some? && d.caja.SinSucursal? && !Repetido(l.pagos, d.requestId)
  }

  /** Such a payment is taken exactly when no void is pending or done. */
  lemma PaymentTakenIff(l: Ledger, d: PagoDto)
    requires LedgerOk(l) && Corriente(l, d)
    ensures Registrar(l, d).Done? <==> l.cuenta.value.estado != AnulacionPendiente && l.cuenta.value.estado != Anulada
  {
    hide RowsOk, CuentaOk, CashOk, Registrado, Antes;
    ConflictUnreachable(l, d);
  }

  /** After any one transaction on a held account, payments are taken exactly when it lifted the hold and did not annul. */
  lemma LiftedHoldTakesPaymentsIff(l: Ledger, e: Evento, d: PagoDto)
    requires LedgerOk(l) && EnEspera(l) && Cubierta(l, e) && Corriente(Paso(l, e), d)
    ensures Registrar(Paso(l, e), d).Done? <==> Levanta(l, e) && Paso(l, e).cuenta.value.estado != Anulada
  {
    hide Paso, LedgerOk, Levanta;
    PasoKeepsLedgerIff(l, e);
    PasoKeepsHoldIff(l, e);
    PaymentTakenIff(Paso(l, e), d);
  }

  /**
   Annulling a collection lifts the hold of a pending void: payments are taken again while it is still
   on its way, and its rejection no longer restores anything.
   */
  lemma AnnulLiftsVoidHold(l: Ledger, p: nat, d: PagoDto)
    requires LedgerOk(l) && AnularPago(PedirBaja(l), p, false).Done?
    requires d.monto == l.pagos[p].monto && d.recibido.None? && d.metodo.Some? && d.caja.SinSucursal?
    requires !Repetido(l.pagos, d.requestId)
    ensures var h := PedirBaja(l);
            var r := AnularPago(h, p, false).state;
            && Registrar(h, d) == Refused(BadRequest)
            && Registrar(r, d).Done?
            && Restaurar(r) == r
  {
    hide CashOk, Reversas, Aplicar, Repartir, Deshacer, Filter, Antes;
    var h := PedirBaja(l);
    var r := AnularPago(h, p, false).state;
    RequestKeepsLedger(l);
    AnularKeepsLedger(h, p, false);
    BalanceIsNonNegative(h);
    assert PagoOk(l.pagos, l.aplicaciones, p);
    forall i | 0 <= i < |r.pagos| ensures r.pagos[i].requestId == l.pagos[i].requestId {}
    ConflictUnreachable(r, d);
  }

  /** So do an accepted debit note, and an accepted partial return that leaves something owed. */
  lemma NotesLiftVoidHold(l: Ledger, ventaTotal: int, total: nat, vence: int, d: PagoDto)
    requires LedgerOk(l) && l.cuenta.Some? && Corriente(l, d)
    ensures var h, r := PedirBaja(l), CargarDebito(PedirBaja(l), ventaTotal, total, vence);
            Registrar(h, d).Refused? && Registrar(r, d).Done? && Restaurar(r) == r
    ensures var r := AcreditarNota(PedirBaja(l), total, false);
            d.monto <= r.cuenta.value.saldoPendiente ==> Registrar(r, d).Done? && Restaurar(r) == r
  {
    hide LedgerOk, Insertar, RebajarTodas, Registrar;
    var h := PedirBaja(l);
    RequestKeepsLedger(l);
    DebitoKeepsLedger(h, ventaTotal, total, vence);
    NotaParcialKeepsLedger(h, total);
    PaymentTakenIff(h, d);
    PaymentTakenIff(CargarDebito(h, ventaTotal, total, vence), d);
    var r := AcreditarNota(h, total, false);
    if d.monto <= r.cuenta.value.saldoPendiente { PaymentTakenIff(r, d); }
  }

  // ---------------------------------------------------------------- an annulled account

  predicate EstaAnulada(l: Ledger) { l.cuenta.Some? && l.cuenta.value.estado == Anulada }

  /** The transactions that set a status without looking at the one they overwrite. */
  predicate Reabre(l: Ledger, e: Evento) {
    e.EvDebito? || e.EvPedirBaja? || (e.EvFijarEstado? && e.estado != Anulada)
  }

  lemma PasoKeepsAnnulledIff(l: Ledger, e: Evento)
    requires EstaAnulada(l)
    ensures EstaAnulada(Paso(l, e)) <==> !Reabre(l, e)
  {
    hide ReversasDeVenta, Insertar, Filter, Antes;
  }

  /** An annulled account stays annulled exactly while no debit note is accepted, no void request writes and no late restore does. */
  lemma AnnulledStandsIff(l: Ledger, es: seq<Evento>)
    requires EstaAnulada(l)
    ensures Siempre(l, es, EstaAnulada) <==>
              forall i :: 0 <= i < |es| ==>
                !es[i].EvDebito? && !es[i].EvPedirBaja? && !(es[i].EvFijarEstado? && es[i].estado != Anulada)
  {
    hide Paso, EstaAnulada, Siempre;
    forall m, e | EstaAnulada(m) ensures EstaAnulada(Paso(m, e)) <==> !Reabre(m, e) { PasoKeepsAnnulledIff(m, e); }
    StandsIff(l, es, EstaAnulada, Reabre);
  }
}
