/**
 annulPayment reads the payment, its applications, their installments and its cash rows before it
 locks the account, and writes from what it read. This module separates the read from the
 transaction and says, for anything that commits in between, exactly when the balance, the cash
 sessions and the whole ledger survive.
 */
module ReceivableRaces {
  import opened Sums
  import opened Wrappers
  import opened CashRegister
  import opened Receivable
  import opened ReceivableLaws
  import R = ReceivableRuns

  /** The row of an installment number, if there is one. */
  function Buscar(cs: seq<Cuota>, n: nat): (r: Option<Cuota>)
    ensures r.Some? ==> r.value in cs && r.value.numero == n
    ensures r.None? ==> forall i :: 0 <= i < |cs| ==> cs[i].numero != n
  {
    if |cs| == 0 then None
    else if cs[|cs| - 1].numero == n then Some(cs[|cs| - 1])
    else Buscar(cs[..|cs| - 1], n)
  }

  lemma BuscarFinds(cs: seq<Cuota>, i: nat)
    requires NumerosDistintos(cs) && i < |cs|
    ensures Buscar(cs, cs[i].numero) == Some(cs[i])
  {
    var r := Buscar(cs, cs[i].numero);
    var j :| 0 <= j < |cs| && cs[j] == r.value;
  }

  /** One installment write: what the row as read gives back, on the row as it is now. */
  function Reescrita(c: Cuota, leida: Cuota, x: int): Cuota {
    var d := Devolver(leida, x);
    c.(pagado := d.pagado, saldo := d.saldo, estado := d.estado)
  }

  /** The installment writes of an annulment of p that read `leido`, row by row of their number. */
  function DeshacerLeido(cs: seq<Cuota>, leido: Ledger, p: nat): (r: seq<Cuota>)
    ensures |r| == |cs|
  {
    seq(|cs|, k requires 0 <= k < |cs| =>
      var x, leida := AplicadoA(leido.aplicaciones, cs[k].numero, p), Buscar(leido.cuotas, cs[k].numero);
      if x == 0 || leida.None? then cs[k] else Reescrita(cs[k], leida.value, x))
  }

  /** What is checked on the rows as first read. */
  predicate Anulable(leido: Ledger, p: nat) {
    && p < |leido.pagos| && leido.pagos[p].cobranza && leido.cuenta.Some?
    && leido.pagos[p].activo && !EnCajaCerrada(leido.caja, p)
  }

  /** Under the lock the transaction finds the account missing or annulled, and refuses. */
  predicate Cerrada(l: Ledger) { l.cuenta.None? || l.cuenta.value.estado == Anulada }

  /** The transaction on rows l of a request that read `leido`; only the account is read again. */
  function AnularLeido(l: Ledger, leido: Ledger, p: nat): Ledger
    requires Anulable(leido, p) && p < |l.pagos|
  {
    if Cerrada(l) then l
    else
      var cuenta, pago := l.cuenta.value, leido.pagos[p];
      Ledger(
        Some(cuenta.(saldoPendiente := cuenta.saldoPendiente + pago.monto,
                     estado := if OtraActiva(l.pagos, p) || cuenta.adelanto > 0 then Parcial else Pendiente)),
        DeshacerLeido(l.cuotas, leido, p),
        l.pagos[p := l.pagos[p].(activo := false)],
        Filter(l.aplicaciones, NoDe(p)),
        Agregar(l.caja, Reversas(leido.caja.movimientos, p, pago)))
  }

  /**
   What a stale annulment writes on account and payments: the balance as it is now plus the amount, the
   payment as it is now but inactive, and partial exactly when there was an advance or some collection
   is active now, whatever was active when it read.
   */
  lemma StaleAnnulWrites(l: Ledger, leido: Ledger, p: nat)
    requires Anulable(leido, p) && p < |l.pagos|
    ensures var r := AnularLeido(l, leido, p);
            if Cerrada(l) then r == l
            else
              var c, d := l.cuenta.value, r.cuenta.value;
              && |r.pagos| == |l.pagos| && r.pagos[p] == l.pagos[p].(activo := false)
              && (forall q :: 0 <= q < |l.pagos| && q != p ==> r.pagos[q] == l.pagos[q])
              && d == c.(saldoPendiente := c.saldoPendiente + leido.pagos[p].monto, estado := d.estado)
              && d.estado in {Parcial, Pendiente}
              && (d.estado == Parcial <==>
                    c.adelanto > 0 || exists q :: 0 <= q < |r.pagos| && r.pagos[q].cobranza && r.pagos[q].activo)
  {
    hide DeshacerLeido, Reversas, EnCajaCerrada, Filter;
    var r := AnularLeido(l, leido, p);
    if !Cerrada(l) && OtraActiva(l.pagos, p) {
      var q :| 0 <= q < |l.pagos| && q != p && l.pagos[q].cobranza && l.pagos[q].activo;
      assert r.pagos[q].cobranza && r.pagos[q].activo;
    }
  }

  /** With nothing between the read and the transaction it is the annulment of the ledger. */
  lemma FreshReadIsAnular(l: Ledger, p: nat)
    requires NumerosDistintos(l.cuotas) && AnularPago(l, p, false).Done?
    ensures Anulable(l, p) && AnularLeido(l, l, p) == AnularPago(l, p, false).state
  {
    forall k | 0 <= k < |l.cuotas|
      ensures DeshacerLeido(l.cuotas, l, p)[k] == Deshacer(l.cuotas, l.aplicaciones, p)[k]
    {
      BuscarFinds(l.cuotas, k);
    }
    assert DeshacerLeido(l.cuotas, l, p) == Deshacer(l.cuotas, l.aplicaciones, p);
  }

  // ---------------------------------------------------------------- the balance

  /** The balance of an installment that p had paid when it was read. */
  function Tocado(leido: Ledger, p: nat): Cuota -> int {
    (c: Cuota) => if AplicadoA(leido.aplicaciones, c.numero, p) != 0 then c.saldo else 0
  }

  /** The balance such an installment had when it was read. */
  function Recordado(leido: Ledger, p: nat): Cuota -> int {
    (c: Cuota) =>
      if AplicadoA(leido.aplicaciones, c.numero, p) == 0 then 0
      else match Buscar(leido.cuotas, c.numero) case Some(x) => x.saldo case None => 0
  }

  function Devuelto(leido: Ledger, p: nat): Cuota -> int {
    (c: Cuota) => AplicadoA(leido.aplicaciones, c.numero, p)
  }

  ghost predicate Tiene(cs: seq<Cuota>, n: nat) {
    exists j :: 0 <= j < |cs| && cs[j].numero == n
  }

  /** No installment read is gone. */
  ghost predicate Retiene(cs: seq<Cuota>, leidas: seq<Cuota>) {
    forall n: nat :: Tiene(leidas, n) ==> Tiene(cs, n)
  }

  function Sin(cs: seq<Cuota>, j: nat): seq<Cuota>
    requires j < |cs|
  {
    cs[..j] + cs[j + 1..]
  }

  lemma SinRow(cs: seq<Cuota>, j: nat, h: Cuota -> int)
    requires j < |cs| && NumerosDistintos(cs)
    ensures Sum(cs, h) == Sum(Sin(cs, j), h) + h(cs[j])
    ensures NumerosDistintos(Sin(cs, j))
    ensures forall x :: x in Sin(cs, j) ==> x in cs && x.numero != cs[j].numero
    ensures forall n: nat :: Tiene(Sin(cs, j), n) <==> Tiene(cs, n) && n != cs[j].numero
  {
    SinSum(cs, j, h);
    SinMembers(cs, j);
  }

  lemma SinSum(cs: seq<Cuota>, j: nat, h: Cuota -> int)
    requires j < |cs|
    ensures Sum(cs, h) == Sum(Sin(cs, j), h) + h(cs[j])
  {
    hide Sum;
    var a, b := cs[..j], cs[j + 1..];
    assert cs == (a + [cs[j]]) + b;
    SumConcat(a + [cs[j]], b, h);
    SumSnoc(a, cs[j], h);
    SumConcat(a, b, h);
  }

  lemma SinMembers(cs: seq<Cuota>, j: nat)
    requires j < |cs| && NumerosDistintos(cs)
    ensures NumerosDistintos(Sin(cs, j))
    ensures forall x :: x in Sin(cs, j) ==> x in cs && x.numero != cs[j].numero
    ensures forall n: nat :: Tiene(Sin(cs, j), n) <==> Tiene(cs, n) && n != cs[j].numero
  {
    var r := Sin(cs, j);
    assert forall k :: 0 <= k < |r| ==> r[k] == cs[if k < j then k else k + 1];
    forall n: nat | Tiene(cs, n) && n != cs[j].numero ensures Tiene(r, n) {
      var k :| 0 <= k < |cs| && cs[k].numero == n;
      assert r[if k < j then k else k - 1] == cs[k];
    }
  }

  /** Sums by installment number do not depend on the order, nor on rows that add nothing. */
  lemma {:induction false} SumByNumber(a: seq<Cuota>, b: seq<Cuota>, h: Cuota -> int)
    requires NumerosDistintos(a) && NumerosDistintos(b)
    requires forall x, y :: x in a && y in b && x.numero == y.numero ==> h(x) == h(y)
    requires forall x :: x in a && h(x) != 0 ==> Tiene(b, x.numero)
    requires forall y :: y in b && h(y) != 0 ==> Tiene(a, y.numero)
    ensures Sum(a, h) == Sum(b, h)
  {
    if |a| == 0 {
      SumZero(b, h);
    } else {
      var i := |a| - 1;
      SinRow(a, i, h);
      if Tiene(b, a[i].numero) {
        var j :| 0 <= j < |b| && b[j].numero == a[i].numero;
        SinRow(b, j, h);
        SumByNumber(Sin(a, i), Sin(b, j), h);
      } else {
        SumByNumber(Sin(a, i), b, h);
      }
    }
  }

  /** What an application was read on is a row that was read. */
  lemma AppliedRowWasRead(leido: Ledger, p: nat, n: nat)
    requires RowsOk(leido) && AplicadoA(leido.aplicaciones, n, p) != 0
    ensures Buscar(leido.cuotas, n).Some?
  {
    if Buscar(leido.cuotas, n).None? {
      forall i | 0 <= i < |leido.aplicaciones| ensures DeAmbos(n, p)(leido.aplicaciones[i]) == 0 {
        assert AplicacionOk(leido.aplicaciones[i], leido.cuotas, leido.pagos);
      }
      SumZero(leido.aplicaciones, DeAmbos(n, p));
    }
  }

  lemma ReadBalancesAdd(cs: seq<Cuota>, leido: Ledger, p: nat)
    requires RowsOk(leido) && NumerosDistintos(cs) && Retiene(cs, leido.cuotas)
    ensures Sum(cs, Recordado(leido, p)) == Sum(leido.cuotas, Tocado(leido, p))
  {
    hide CuotaOk, AplicacionOk, PagoOk, SinChoques, AplicadoA;
    var h := Recordado(leido, p);
    forall x | x in cs && h(x) != 0 ensures Tiene(leido.cuotas, x.numero) {
      var j :| 0 <= j < |leido.cuotas| && leido.cuotas[j] == Buscar(leido.cuotas, x.numero).value;
    }
    forall y | y in leido.cuotas ensures Tiene(cs, y.numero) {
      assert Tiene(leido.cuotas, y.numero);
    }
    SumByNumber(cs, leido.cuotas, h);
    forall j | 0 <= j < |leido.cuotas| ensures h(leido.cuotas[j]) == Tocado(leido, p)(leido.cuotas[j]) {
      BuscarFinds(leido.cuotas, j);
    }
    SumMatch(leido.cuotas, leido.cuotas, h, Tocado(leido, p));
  }

  lemma ReadApplicationsAdd(cs: seq<Cuota>, leido: Ledger, p: nat)
    requires RowsOk(leido) && NumerosDistintos(cs) && Retiene(cs, leido.cuotas)
    requires p < |leido.pagos| && leido.pagos[p].cobranza && leido.pagos[p].activo
    ensures Sum(cs, Devuelto(leido, p)) == leido.pagos[p].monto
  {
    assert PagoOk(leido.pagos, leido.aplicaciones, p);
    var apps := leido.aplicaciones;
    forall i | 0 <= i < |apps| && apps[i].pago == p ensures Tiene(cs, apps[i].cuota) {
      assert AplicacionOk(apps[i], leido.cuotas, leido.pagos);
      assert Tiene(leido.cuotas, apps[i].cuota);
    }
    AplicadoOverCuotas(cs, apps, p, Devuelto(leido, p));
  }

  lemma StaleRowBalance(cs: seq<Cuota>, leido: Ledger, p: nat, k: nat)
    requires RowsOk(leido) && k < |cs|
    ensures DeshacerLeido(cs, leido, p)[k].saldo
            == cs[k].saldo - Tocado(leido, p)(cs[k]) + Recordado(leido, p)(cs[k]) + Devuelto(leido, p)(cs[k])
  {
    hide RowsOk, AplicadoA, Buscar;
    if AplicadoA(leido.aplicaciones, cs[k].numero, p) != 0 { AppliedRowWasRead(leido, p, cs[k].numero); }
  }

  /** The sum the stale writes leave. */
  lemma StaleWritesAdd(cs: seq<Cuota>, leido: Ledger, p: nat)
    requires RowsOk(leido) && NumerosDistintos(cs) && Retiene(cs, leido.cuotas)
    requires p < |leido.pagos| && leido.pagos[p].cobranza && leido.pagos[p].activo
    ensures Sum(DeshacerLeido(cs, leido, p), SaldoDe())
            == Sum(cs, SaldoDe()) - Sum(cs, Tocado(leido, p))
               + Sum(leido.cuotas, Tocado(leido, p)) + leido.pagos[p].monto
  {
    hide RowsOk, AplicadoA, Buscar;
    var quedan := (c: Cuota) => c.saldo - Tocado(leido, p)(c);
    var vuelven := (c: Cuota) => Recordado(leido, p)(c) + Devuelto(leido, p)(c);
    var todo := (c: Cuota) => quedan(c) + vuelven(c);
    forall k | 0 <= k < |cs| ensures SaldoDe()(DeshacerLeido(cs, leido, p)[k]) == todo(cs[k]) {
      StaleRowBalance(cs, leido, p, k);
    }
    SumMatch(DeshacerLeido(cs, leido, p), cs, SaldoDe(), todo);
    SumSplit(cs, todo, quedan, vuelven);
    SumSplit(cs, SaldoDe(), quedan, Tocado(leido, p));
    SumSplit(cs, vuelven, Recordado(leido, p), Devuelto(leido, p));
    ReadBalancesAdd(cs, leido, p);
    ReadApplicationsAdd(cs, leido, p);
  }

  /**
   Whatever committed between the read and the transaction, the account still owes what its
   installments owe exactly when the installments p had paid owe together what they owed when read.
   */
  lemma StaleAnnulKeepsBalanceIff(l: Ledger, leido: Ledger, p: nat)
    requires LedgerOk(leido) && Anulable(leido, p) && LedgerOk(l) && p < |l.pagos| && Retiene(l.cuotas, leido.cuotas)
    ensures CuentaOk(AnularLeido(l, leido, p)) <==>
              Cerrada(l) || Sum(l.cuotas, Tocado(leido, p)) == Sum(leido.cuotas, Tocado(leido, p))
  {
    hide CashOk, Filter, Reversas, EnCajaCerrada, OtraActiva, DeshacerLeido, Tocado, Retiene;
    StaleWritesAdd(l.cuotas, leido, p);
  }

  // ---------------------------------------------------------------- the cash sessions

  /** Every session that held a cash row of p when read is still open. */
  ghost predicate SiguenAbiertas(l: Ledger, leido: Ledger, p: nat) {
    forall i :: 0 <= i < |leido.caja.movimientos| && leido.caja.movimientos[i].pago == Some(p) ==>
      Abierta(l.caja, leido.caja.movimientos[i].sesion)
  }

  /** Each reversal is written into a session that holds a cash row of p. */
  lemma ReversalHasRow(movs: seq<Movimiento>, p: nat, pago: Pago, k: nat) returns (i: nat)
    requires k < |Reversas(movs, p, pago)|
    ensures i < |movs| && movs[i].pago == Some(p) && movs[i].sesion == Reversas(movs, p, pago)[k].sesion
  {
    FilterMembers(movs, MovDe(p));
    var mios := Filter(movs, MovDe(p));
    assert MovDe(p)(mios[k]) && mios[k] in movs;
    i :| 0 <= i < |movs| && movs[i] == mios[k];
  }

  /** Each cash row of p gets a reversal in its session. */
  lemma RowHasReversal(movs: seq<Movimiento>, p: nat, pago: Pago, i: nat) returns (k: nat)
    requires i < |movs| && movs[i].pago == Some(p)
    ensures k < |Reversas(movs, p, pago)| && Reversas(movs, p, pago)[k].sesion == movs[i].sesion
  {
    FilterMembers(movs, MovDe(p));
    var mios := Filter(movs, MovDe(p));
    assert MovDe(p)(movs[i]);
    k :| 0 <= k < |mios| && mios[k] == movs[i];
  }

  /** A negative row in a closed session breaks its stored expected amount. */
  lemma ClosedSessionRefuses(c: Caja, nuevos: seq<Movimiento>, k: nat)
    requires CajaOk(c) && k < |nuevos| && !Abierta(c, nuevos[k].sesion)
    requires forall i :: 0 <= i < |nuevos| ==> nuevos[i].monto < 0
    ensures !CajaOk(Agregar(c, nuevos))
  {
    var s, r := nuevos[k].sesion, Agregar(c, nuevos);
    if s >= |c.sesiones| {
      assert r.movimientos[|c.movimientos| + k] == nuevos[k];
    } else {
      assert SesionOk(c, s);
      SumConcat(c.movimientos, nuevos, EnSesion(s));
      var f := (m: Movimiento) => -EnSesion(s)(m);
      SumNegate(nuevos, EnSesion(s), f);
      SumNonNegative(nuevos, f);
      assert f(nuevos[k]) > 0;
      assert !SesionOk(r, s);
    }
  }

  /** Reversals in open sessions keep the cash laws. */
  lemma OpenReversalsKeepCash(l: Ledger, leido: Ledger, p: nat)
    requires Anulable(leido, p) && CashOk(l) && p < |l.pagos| && !Cerrada(l) && SiguenAbiertas(l, leido, p)
    ensures CashOk(AnularLeido(l, leido, p))
  {
    hide CajaOk, Filter, DeshacerLeido, EnCajaCerrada, OtraActiva, Sum;
    var r, nuevos := AnularLeido(l, leido, p), Reversas(leido.caja.movimientos, p, leido.pagos[p]);
    forall k | 0 <= k < |nuevos| ensures Abierta(l.caja, nuevos[k].sesion) && nuevos[k].tipo != Apertura {
      var i := ReversalHasRow(leido.caja.movimientos, p, leido.pagos[p], k);
    }
    AgregarKeepsCaja(l.caja, nuevos);
    forall i | 0 <= i < |r.caja.movimientos| ensures MovimientoOk(r.caja.movimientos[i], r.pagos) {
      if i < |l.caja.movimientos| { assert MovimientoOk(l.caja.movimientos[i], l.pagos); }
    }
  }

  /** A reversal in a session closed meanwhile breaks them. */
  lemma ClosedReversalBreaksCash(l: Ledger, leido: Ledger, p: nat)
    requires LedgerOk(leido) && Anulable(leido, p) && CashOk(l) && p < |l.pagos|
    requires !Cerrada(l) && !SiguenAbiertas(l, leido, p)
    ensures !CashOk(AnularLeido(l, leido, p))
  {
    hide CajaOk, DeshacerLeido, EnCajaCerrada, OtraActiva, RowsOk, CuentaOk, Filter;
    var pago, movs := leido.pagos[p], leido.caja.movimientos;
    CollectionIsPositive(leido, p);
    var i :| 0 <= i < |movs| && movs[i].pago == Some(p) && !Abierta(l.caja, movs[i].sesion);
    var k := RowHasReversal(movs, p, pago, i);
    ClosedSessionRefuses(l.caja, Reversas(movs, p, pago), k);
  }

  lemma CollectionIsPositive(l: Ledger, p: nat)
    requires RowsOk(l) && p < |l.pagos| && l.pagos[p].cobranza && l.pagos[p].activo
    ensures l.pagos[p].monto > 0
  {
    assert PagoOk(l.pagos, l.aplicaciones, p);
  }

  /**
   Whatever committed in between, the cash laws survive exactly when no session that held a cash row
   of the payment was closed: the check for closed sessions was made on the rows as read.
   */
  lemma StaleAnnulKeepsCashIff(l: Ledger, leido: Ledger, p: nat)
    requires LedgerOk(leido) && Anulable(leido, p) && CashOk(l) && p < |l.pagos|
    ensures CashOk(AnularLeido(l, leido, p)) <==> Cerrada(l) || SiguenAbiertas(l, leido, p)
  {
    hide CashOk, LedgerOk, SiguenAbiertas, Anulable;
    if !Cerrada(l) {
      if SiguenAbiertas(l, leido, p) {
        OpenReversalsKeepCash(l, leido, p);
      } else {
        ClosedReversalBreaksCash(l, leido, p);
      }
    }
  }

  // ---------------------------------------------------------------- the whole ledger

  /** The installments p had paid show what they showed when read. */
  ghost predicate Intactas(cs: seq<Cuota>, leido: Ledger, p: nat) {
    forall k :: 0 <= k < |cs| && AplicadoA(leido.aplicaciones, cs[k].numero, p) != 0 ==>
      var leida := Buscar(leido.cuotas, cs[k].numero);
      leida.Some? && leida.value.saldo == cs[k].saldo && leida.value.pagado == cs[k].pagado
  }

  /** The applications of p are those read. */
  ghost predicate MismasAplicaciones(l: Ledger, leido: Ledger, p: nat) {
    forall n: nat :: AplicadoA(l.aplicaciones, n, p) == AplicadoA(leido.aplicaciones, n, p)
  }

  lemma IntactasIsDeshacer(l: Ledger, leido: Ledger, p: nat)
    requires RowsOk(leido) && MismasAplicaciones(l, leido, p) && Intactas(l.cuotas, leido, p)
    ensures DeshacerLeido(l.cuotas, leido, p) == Deshacer(l.cuotas, l.aplicaciones, p)
  {
    hide RowsOk, AplicadoA, Buscar;
    forall k | 0 <= k < |l.cuotas|
      ensures DeshacerLeido(l.cuotas, leido, p)[k] == Deshacer(l.cuotas, l.aplicaciones, p)[k]
    {
      assert AplicadoA(l.aplicaciones, l.cuotas[k].numero, p) == AplicadoA(leido.aplicaciones, l.cuotas[k].numero, p);
    }
  }

  /** A consistent row after the stale write was intact before it. */
  lemma ConsistentRowWasIntact(l: Ledger, leido: Ledger, p: nat, k: nat)
    requires RowsOk(l) && RowsOk(leido) && MismasAplicaciones(l, leido, p) && k < |l.cuotas|
    requires p < |l.pagos| && l.pagos[p].activo && p < |leido.pagos| && leido.pagos[p].activo
    requires AplicadoA(leido.aplicaciones, l.cuotas[k].numero, p) != 0
    requires CuotaOk(DeshacerLeido(l.cuotas, leido, p)[k], Filter(l.aplicaciones, NoDe(p)))
    ensures var leida := Buscar(leido.cuotas, l.cuotas[k].numero);
            leida.Some? && leida.value.saldo == l.cuotas[k].saldo && leida.value.pagado == l.cuotas[k].pagado
  {
    hide AplicadoA, Buscar, Filter, Sum, SinChoques, PagoOk, AplicacionOk;
    var c := l.cuotas[k];
    AppliedRowWasRead(leido, p, c.numero);
    var i :| 0 <= i < |leido.cuotas| && leido.cuotas[i] == Buscar(leido.cuotas, c.numero).value;
    assert AplicadoA(l.aplicaciones, c.numero, p) == AplicadoA(leido.aplicaciones, c.numero, p);
    ClampNeverFires(leido, p, i);
    ClampNeverFires(l, p, k);
    QuitarPago(l.aplicaciones, p, c.numero);
    assert CuotaOk(c, l.aplicaciones);
  }

  /**
   While p is still active, a stale annulment leaves a consistent ledger exactly when the
   installments p had paid are as they were read and its cash sessions are still open.
   */
  lemma StaleAnnulKeepsLedgerIff(l: Ledger, leido: Ledger, p: nat)
    requires LedgerOk(leido) && Anulable(leido, p) && LedgerOk(l) && p < |l.pagos|
    requires l.pagos[p] == leido.pagos[p] && MismasAplicaciones(l, leido, p)
    ensures LedgerOk(AnularLeido(l, leido, p)) <==>
              Cerrada(l) || (Intactas(l.cuotas, leido, p) && SiguenAbiertas(l, leido, p))
  {
    hide RowsOk, CashOk, Filter, Reversas, DeshacerLeido, Deshacer, Intactas, SiguenAbiertas, MismasAplicaciones;
    hide EnCajaCerrada, Sum;
    StaleAnnulKeepsCashIff(l, leido, p);
    if !Cerrada(l) {
      var r := AnularLeido(l, leido, p);
      if Intactas(l.cuotas, leido, p) {
        IntactasIsDeshacer(l, leido, p);
        var base := l.(caja := Caja(l.caja.sesiones, []));
        SameRows(l, base);
        NoRowsNoClosed(base.caja, p);
        assert AnularPago(base, p, false).Done?;
        AnularKeepsRows(base, p);
        AnularSum(base, p);
        SameRows(AnularPago(base, p, false).state, r);
      } else {
        if RowsOk(r) { ConsistentRowsWereIntact(l, leido, p); }
      }
    }
  }

  lemma NoRowsNoClosed(c: Caja, p: nat)
    requires c.movimientos == []
    ensures !EnCajaCerrada(c, p)
  {
  }

  lemma SameRows(a: Ledger, b: Ledger)
    requires a.cuotas == b.cuotas && a.pagos == b.pagos && a.aplicaciones == b.aplicaciones && RowsOk(a)
    ensures RowsOk(b)
  {
  }

  lemma ConsistentRowsWereIntact(l: Ledger, leido: Ledger, p: nat)
    requires RowsOk(leido) && Anulable(leido, p) && RowsOk(l) && p < |l.pagos| && !Cerrada(l)
    requires l.pagos[p] == leido.pagos[p] && MismasAplicaciones(l, leido, p) && RowsOk(AnularLeido(l, leido, p))
    ensures Intactas(l.cuotas, leido, p)
  {
    hide Filter, Reversas, DeshacerLeido, MismasAplicaciones, EnCajaCerrada, Sum, AplicadoA, Buscar;
    hide PagoOk, SinChoques, AplicacionOk, CuotaOk;
    var r := AnularLeido(l, leido, p);
    forall k | 0 <= k < |l.cuotas| && AplicadoA(leido.aplicaciones, l.cuotas[k].numero, p) != 0
      ensures var leida := Buscar(leido.cuotas, l.cuotas[k].numero);
              leida.Some? && leida.value.saldo == l.cuotas[k].saldo && leida.value.pagado == l.cuotas[k].pagado
    {
      assert CuotaOk(r.cuotas[k], r.aplicaciones);
      ConsistentRowWasIntact(l, leido, p, k);
    }
  }

  // ---------------------------------------------------------------- over any run in between

  /** What a later state b keeps of payment p and of the installments of a. */
  ghost predicate Sigue(a: Ledger, b: Ledger, p: nat) {
    && |a.pagos| <= |b.pagos|
    && (p < |a.pagos| ==>
          && b.pagos[p].(activo := a.pagos[p].activo) == a.pagos[p]
          && (b.pagos[p].activo ==> a.pagos[p].activo && MismasAplicaciones(b, a, p)))
    && Retiene(b.cuotas, a.cuotas)
    && b.cuenta.Some?
  }

  lemma SigueChains(a: Ledger, b: Ledger, c: Ledger, p: nat)
    requires Sigue(a, b, p) && Sigue(b, c, p)
    ensures Sigue(a, c, p)
  {
    hide AplicadoA, Tiene;
    if p < |a.pagos| && c.pagos[p].activo {
      forall n: nat ensures AplicadoA(c.aplicaciones, n, p) == AplicadoA(a.aplicaciones, n, p) {
        assert AplicadoA(c.aplicaciones, n, p) == AplicadoA(b.aplicaciones, n, p);
      }
    }
  }

  lemma SameNumbersRetain(a: seq<Cuota>, b: seq<Cuota>)
    requires |a| == |b| && forall i :: 0 <= i < |a| ==> b[i].numero == a[i].numero
    ensures Retiene(b, a)
  {
    forall n: nat | Tiene(a, n) ensures Tiene(b, n) {
      var i :| 0 <= i < |a| && a[i].numero == n;
      assert b[i].numero == n;
    }
  }

  lemma PaymentFollows(l: Ledger, d: PagoDto, p: nat)
    requires LedgerOk(l) && l.cuenta.Some?
    ensures Sigue(l, Registrar(l, d).After(l), p)
  {
    hide CuentaOk, CashOk, Aplicar, Parte, Antes, ResolverCaja, Tiene, CuotaOk, PagoOk, AplicacionOk, SinChoques;
    var r := Registrar(l, d).After(l);
    SameNumbersRetain(l.cuotas, r.cuotas);
    if r != l && p < |l.pagos| {
      var nuevas := Aplicar(l.cuotas, d.monto, |l.pagos|, |l.cuotas|);
      AplicarRows(l.cuotas, d.monto, |l.pagos|, |l.cuotas|);
      forall n: nat ensures AplicadoA(r.aplicaciones, n, p) == AplicadoA(l.aplicaciones, n, p) {
        SumConcat(l.aplicaciones, nuevas, DeAmbos(n, p));
        SumZero(nuevas, DeAmbos(n, p));
      }
    }
  }

  lemma AnnulFollows(l: Ledger, q: nat, vacia: bool, p: nat)
    requires l.cuenta.Some?
    ensures Sigue(l, AnularPago(l, q, vacia).After(l), p)
  {
    hide AplicadoA, Tiene, Filter, EnCajaCerrada, OtraActiva, Reversas;
    var r := AnularPago(l, q, vacia).After(l);
    SameNumbersRetain(l.cuotas, r.cuotas);
    if p < |l.pagos| && r.pagos[p].activo && AnularPago(l, q, vacia).Done? {
      forall n: nat ensures AplicadoA(r.aplicaciones, n, p) == AplicadoA(l.aplicaciones, n, p) {
        R.QuitarOtro(l.aplicaciones, n, q, p);
      }
    }
  }

  lemma InsertFollows(l: Ledger, ventaTotal: int, total: int, vence: int, p: nat)
    requires l.cuenta.Some?
    ensures Sigue(l, CargarDebito(l, ventaTotal, total, vence), p)
  {
    hide AplicadoA;
    var c := NuevaCuota(l.cuotas, vence, total);
    InsertarIndices(l.cuotas, c);
    forall n: nat | Tiene(l.cuotas, n) ensures Tiene(Insertar(l.cuotas, c), n) {
      var i :| 0 <= i < |l.cuotas| && l.cuotas[i].numero == n;
      var j := if i < Lugar(l.cuotas, c) then i else i + 1;
      assert Insertar(l.cuotas, c)[j] == l.cuotas[i];
    }
  }

  lemma PasoFollows(l: Ledger, e: R.Evento, p: nat)
    requires LedgerOk(l) && l.cuenta.Some?
    ensures Sigue(l, R.Paso(l, e), p)
  {
    hide LedgerOk, AplicadoA, Tiene, RebajarTodas, Registrar, AnularPago, Abrir, Mover, Cerrar, ReversasDeVenta;
    match e {
      case EvPago(d) => PaymentFollows(l, d, p);
      case EvAnular(q, vacia) => AnnulFollows(l, q, vacia, p);
      case EvDebito(v, t, f) => InsertFollows(l, v, t, f, p);
      case EvNotaParcial(t) => NoteFollows(l, t, false, p);
      case EvNotaTotal(t) => NoteFollows(l, t, true, p);
      case _ => SameNumbersRetain(l.cuotas, R.Paso(l, e).cuotas);
    }
  }

  lemma NoteFollows(l: Ledger, total: int, devolucionTotal: bool, p: nat)
    requires l.cuenta.Some?
    ensures Sigue(l, AcreditarNota(l, total, devolucionTotal), p)
  {
    hide AplicadoA, Tiene, Rebaja;
    SameNumbersRetain(l.cuotas, AcreditarNota(l, total, devolucionTotal).cuotas);
  }

  lemma {:induction false} RunFollows(l: Ledger, es: seq<R.Evento>, p: nat)
    requires LedgerOk(l) && l.cuenta.Some? && R.Cubiertas(l, es)
    ensures Sigue(l, R.Correr(l, es), p)
  {
    hide LedgerOk, R.Paso, AplicadoA, Tiene, R.Cubierta;
    if |es| == 0 {
    } else {
      var u := es[..|es| - 1];
      RunFollows(l, u, p);
      R.RunKeepsLedger(l, u);
      PasoFollows(R.Correr(l, u), es[|es| - 1], p);
      SigueChains(l, R.Correr(l, u), R.Correr(l, es), p);
    }
  }

  /**
   Read, any run of other transactions, then the write: exactly when the balance, the cash sessions
   and, while the payment is still active, the whole ledger come out consistent.
   */
  lemma StaleAnnulOverRun(leido: Ledger, es: seq<R.Evento>, p: nat)
    requires LedgerOk(leido) && Anulable(leido, p) && R.Cubiertas(leido, es)
    ensures var l := R.Correr(leido, es);
            && p < |l.pagos|
            && (CuentaOk(AnularLeido(l, leido, p)) <==>
                  Cerrada(l) || Sum(l.cuotas, Tocado(leido, p)) == Sum(leido.cuotas, Tocado(leido, p)))
            && (CashOk(AnularLeido(l, leido, p)) <==> Cerrada(l) || SiguenAbiertas(l, leido, p))
            && (l.pagos[p].activo ==>
                  (LedgerOk(AnularLeido(l, leido, p)) <==>
                     Cerrada(l) || (Intactas(l.cuotas, leido, p) && SiguenAbiertas(l, leido, p))))
  {
    hide LedgerOk, CuentaOk, CashOk, Retiene, MismasAplicaciones, Cerrada, SiguenAbiertas, Intactas, AnularLeido;
    hide EnCajaCerrada;
    var l := R.Correr(leido, es);
    R.RunKeepsLedger(leido, es);
    RunFollows(leido, es, p);
    StaleAnnulKeepsBalanceIff(l, leido, p);
    LedgerHasCash(l);
    StaleAnnulKeepsCashIff(l, leido, p);
    if l.pagos[p].activo { StaleAnnulKeepsLedgerIff(l, leido, p); }
  }

  lemma LedgerHasCash(l: Ledger)
    requires LedgerOk(l)
    ensures CashOk(l)
  {
  }

  // ---------------------------------------------------------------- one transaction in between

  /** No installment holds applications of both payments. */
  ghost predicate Ajenos(l: Ledger, p: nat, q: nat) {
    forall k :: 0 <= k < |l.cuotas| ==>
      AplicadoA(l.aplicaciones, l.cuotas[k].numero, p) == 0 || AplicadoA(l.aplicaciones, l.cuotas[k].numero, q) == 0
  }

  /**
   Two annulments read the same rows and commit one after the other: the balance survives exactly
   when no installment was paid by both.
   */
  lemma OverlappingAnnulmentsIff(l: Ledger, p: nat, q: nat)
    requires LedgerOk(l) && Anulable(l, p) && AnularPago(l, q, false).Done?
    ensures CuentaOk(AnularLeido(AnularPago(l, q, false).state, l, p)) <==> Ajenos(l, p, q)
  {
    hide RowsOk, CuentaOk, CashOk, AplicadoA, Filter, Reversas, EnCajaCerrada, AnularLeido, Tiene, Abierta;
    var r := AnularPago(l, q, false).state;
    AnularKeepsLedger(l, q, false);
    AnnulFollows(l, q, false, p);
    StaleAnnulKeepsBalanceIff(r, l, p);
    forall k | 0 <= k < |l.cuotas|
      ensures Tocado(l, p)(l.cuotas[k]) <= Tocado(l, p)(r.cuotas[k])
      ensures Tocado(l, p)(l.cuotas[k]) == Tocado(l, p)(r.cuotas[k]) <==>
                AplicadoA(l.aplicaciones, l.cuotas[k].numero, p) == 0 || AplicadoA(l.aplicaciones, l.cuotas[k].numero, q) == 0
    {
      ClampNeverFires(l, q, k);
    }
    SumEqualIff(l.cuotas, r.cuotas, Tocado(l, p));
  }

  /** Two requests for the same payment both commit: the account gains its amount twice. */
  lemma SamePaymentTwice(l: Ledger, p: nat)
    requires LedgerOk(l) && AnularPago(l, p, false).Done?
    ensures var r := AnularLeido(AnularPago(l, p, false).state, l, p);
            && r.cuenta.Some? && r.cuenta.value.saldoPendiente == l.cuenta.value.saldoPendiente + 2 * l.pagos[p].monto
            && Sum(r.cuotas, SaldoDe()) == Sum(l.cuotas, SaldoDe()) + l.pagos[p].monto
            && !CuentaOk(r)
  {
    var m := AnularPago(l, p, false).state;
    CollectionIsPositive(l, p);
    AnularSum(l, p);
    forall k | 0 <= k < |l.cuotas| ensures DeshacerLeido(m.cuotas, l, p)[k] == m.cuotas[k] {
      BuscarFinds(l.cuotas, k);
    }
    assert DeshacerLeido(m.cuotas, l, p) == m.cuotas;
  }

  /** A payment in the gap leaves the balance right exactly when it put nothing on an installment p had paid. */
  lemma PaymentInGapIff(l: Ledger, d: PagoDto, p: nat)
    requires LedgerOk(l) && Anulable(l, p) && Registrar(l, d).Done? && Registrar(l, d).state != l
    ensures CuentaOk(AnularLeido(Registrar(l, d).state, l, p)) <==>
              forall k :: 0 <= k < |l.cuotas| && AplicadoA(l.aplicaciones, l.cuotas[k].numero, p) != 0 ==>
                Parte(l.cuotas, d.monto, k) == 0
  {
    hide RowsOk, CuentaOk, CashOk, AplicadoA, Aplicar, Antes, Parte, ResolverCaja, EnCajaCerrada, AnularLeido, Tiene;
    var r := Registrar(l, d).state;
    RegistrarKeepsLedger(l, d);
    PaymentFollows(l, d, p);
    StaleAnnulKeepsBalanceIff(r, l, p);
    forall k | 0 <= k < |l.cuotas|
      ensures Tocado(l, p)(r.cuotas[k]) <= Tocado(l, p)(l.cuotas[k])
      ensures Tocado(l, p)(r.cuotas[k]) == Tocado(l, p)(l.cuotas[k]) <==>
                AplicadoA(l.aplicaciones, l.cuotas[k].numero, p) == 0 || Parte(l.cuotas, d.monto, k) == 0
    {
      ParteStep(l.cuotas, d.monto, k);
    }
    SumEqualIff(r.cuotas, l.cuotas, Tocado(l, p));
  }
}
