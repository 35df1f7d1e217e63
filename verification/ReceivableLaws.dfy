/**
 What every operation on the receivable ledger keeps.
 `LedgerOk` ties balances, installments, applications and payments together; each
 `...KeepsLedger` lemma is one operation, and `ReceivableRuns` closes them over every run.
 */
module ReceivableLaws {
  import opened Sums
  import opened Wrappers
  import opened CashRegister
  import opened Receivable

  // ---------------------------------------------------------------- the invariant

  ghost predicate Ordenadas(cs: seq<Cuota>) {
    forall i, j :: 0 <= i < j < |cs| ==> AntesDe(cs[i], cs[j])
  }

  ghost predicate NumerosDistintos(cs: seq<Cuota>) {
    forall i, j :: 0 <= i < j < |cs| ==> cs[i].numero != cs[j].numero
  }

  predicate Viva(c: Cuota) { c.estado != CuotaAnulada }

  ghost predicate EstadoOk(c: Cuota) {
    match c.estado
    case CuotaPendiente => c.pagado == 0
    case CuotaParcial => c.pagado > 0 && c.saldo > 0
    case CuotaPagada => c.saldo == 0
    case CuotaAnulada => c.saldo == 0
  }

  /** A live installment: paid plus owed is the original, and paid is what its applications say. */
  ghost predicate CuotaOk(c: Cuota, apps: seq<Aplicacion>) {
    && c.saldo >= 0
    && EstadoOk(c)
    && (Viva(c) ==> c.pagado + c.saldo == c.original && c.pagado == Sum(apps, DeCuota(c.numero)))
  }

  ghost predicate Existe(cs: seq<Cuota>, n: nat, viva: bool) {
    exists i :: 0 <= i < |cs| && cs[i].numero == n && Viva(cs[i]) == viva
  }

  /** An application belongs to a collection, and it is live exactly when its installment is. */
  ghost predicate AplicacionOk(a: Aplicacion, cs: seq<Cuota>, pagos: seq<Pago>) {
    && a.monto > 0
    && a.pago < |pagos|
    && pagos[a.pago].cobranza
    && Existe(cs, a.cuota, pagos[a.pago].activo)
  }

  predicate Choque(a: Aplicacion, b: Aplicacion) { a.cuota == b.cuota && a.pago == b.pago }

  ghost predicate SinChoques(apps: seq<Aplicacion>) {
    forall i, j :: 0 <= i < j < |apps| ==> !Choque(apps[i], apps[j])
  }

  /** An active collection is fully applied. */
  ghost predicate PagoOk(pagos: seq<Pago>, apps: seq<Aplicacion>, p: nat)
    requires p < |pagos|
  {
    pagos[p].cobranza && pagos[p].activo ==> pagos[p].monto > 0 && pagos[p].monto == Sum(apps, DePago(p))
  }

  /** The cash rows of an active payment are its own amount and not yet reversed. */
  ghost predicate MovimientoOk(m: Movimiento, pagos: seq<Pago>) {
    m.pago.Some? ==>
      && m.pago.value < |pagos|
      && m.tipo != Apertura
      && (pagos[m.pago.value].activo ==> m.monto == pagos[m.pago.value].monto && (m.tipo == Venta || m.tipo == Cobranza))
  }

  ghost predicate RowsOk(l: Ledger) {
    && Ordenadas(l.cuotas) && NumerosDistintos(l.cuotas)
    && (forall i :: 0 <= i < |l.cuotas| ==> CuotaOk(l.cuotas[i], l.aplicaciones))
    && (forall i :: 0 <= i < |l.aplicaciones| ==> AplicacionOk(l.aplicaciones[i], l.cuotas, l.pagos))
    && SinChoques(l.aplicaciones)
    && (forall p :: 0 <= p < |l.pagos| ==> PagoOk(l.pagos, l.aplicaciones, p))
  }

  ghost predicate CashOk(l: Ledger) {
    && CajaOk(l.caja)
    && (forall i :: 0 <= i < |l.caja.movimientos| ==> MovimientoOk(l.caja.movimientos[i], l.pagos))
  }

  /** The balance column of the account is the sum of the installment balances. */
  ghost predicate CuentaOk(l: Ledger) {
    match l.cuenta
    case None => l.cuotas == [] && l.aplicaciones == []
    case Some(c) => c.saldoPendiente == Sum(l.cuotas, SaldoDe())
  }

  ghost predicate LedgerOk(l: Ledger) { RowsOk(l) && CuentaOk(l) && CashOk(l) }

  /** A freshly opened account: nothing applied, every balance equal to its original. */
  ghost predicate Inicial(l: Ledger) {
    && l.aplicaciones == []
    && Ordenadas(l.cuotas) && NumerosDistintos(l.cuotas)
    && (forall i :: 0 <= i < |l.cuotas| ==>
          var c := l.cuotas[i];
          c.estado == CuotaPendiente && c.pagado == 0 && c.saldo == c.original && c.original >= 0)
    && (forall p :: 0 <= p < |l.pagos| ==> !l.pagos[p].cobranza)
    && CuentaOk(l) && CashOk(l)
    && (l.cuenta.Some? ==>
          var c := l.cuenta.value;
          c.saldoPendiente == c.saldoInicial && c.totalVenta == c.adelanto + c.saldoInicial)
  }

  lemma InicialIsOk(l: Ledger)
    requires Inicial(l)
    ensures LedgerOk(l)
  {
  }

  // ---------------------------------------------------------------- registerPayment

  lemma {:induction false} AntesNonNegative(cs: seq<Cuota>, j: nat, k: nat)
    requires j <= k <= |cs|
    ensures 0 <= Antes(cs, j) <= Antes(cs, k)
    decreases k
  {
    if j < k {
      AntesNonNegative(cs, j, k - 1);
    } else if k > 0 {
      AntesNonNegative(cs, k - 1, k - 1);
    }
  }

  /** The open balance is the balance column when no balance is negative. */
  lemma {:induction false} AntesIsSaldo(cs: seq<Cuota>, k: nat)
    requires k <= |cs|
    requires forall i :: 0 <= i < |cs| ==> cs[i].saldo >= 0
    ensures Antes(cs, k) == Sum(cs[..k], SaldoDe())
  {
    if k == 0 {
    } else {
      AntesIsSaldo(cs, k - 1);
      SumPrefix(cs, k - 1, SaldoDe());
    }
  }

  /** The share of an installment is what the running total grows by. */
  lemma ParteStep(cs: seq<Cuota>, monto: int, k: nat)
    requires k < |cs| && monto >= 0
    ensures Parte(cs, monto, k) == Min(monto, Antes(cs, k + 1)) - Min(monto, Antes(cs, k))
    ensures Parte(cs, monto, k) >= 0
  {
    AntesNonNegative(cs, k, k + 1);
  }

  /** The waterfall hands out exactly the payment, up to the open balance. */
  lemma {:induction false} RepartirSum(cs: seq<Cuota>, monto: int, k: nat)
    requires k <= |cs| && monto >= 0
    ensures Sum(Repartir(cs, monto)[..k], SaldoDe()) == Sum(cs[..k], SaldoDe()) - Min(monto, Antes(cs, k))
  {
    if k == 0 {
    } else {
      var j := k - 1;
      RepartirSum(cs, monto, j);
      ParteStep(cs, monto, j);
      SumPrefix(cs, j, SaldoDe());
      SumPrefix(Repartir(cs, monto), j, SaldoDe());
      assert Repartir(cs, monto)[j].saldo == cs[j].saldo - Parte(cs, monto, j);
    }
  }

  lemma {:induction false} AplicarDePago(cs: seq<Cuota>, monto: int, p: nat, k: nat, q: nat)
    requires k <= |cs| && monto >= 0
    ensures Sum(Aplicar(cs, monto, p, k), DePago(q)) == if q == p then Min(monto, Antes(cs, k)) else 0
  {
    if k == 0 {
    } else {
      var j := k - 1;
      AplicarDePago(cs, monto, p, j, q);
      ParteStep(cs, monto, j);
      var x, init := Parte(cs, monto, j), Aplicar(cs, monto, p, j);
      if x > 0 {
        SumSnoc(init, Aplicacion(cs[j].numero, p, x), DePago(q));
        assert Aplicar(cs, monto, p, k) == init + [Aplicacion(cs[j].numero, p, x)];
      } else {
        assert Aplicar(cs, monto, p, k) == init;
      }
    }
  }

  /** Installment i appears among the first k exactly with its own share. */
  lemma {:induction false} AplicarDeCuota(cs: seq<Cuota>, monto: int, p: nat, k: nat, i: nat)
    requires k <= |cs| && i < |cs| && NumerosDistintos(cs)
    ensures Sum(Aplicar(cs, monto, p, k), DeCuota(cs[i].numero)) == if i < k then Max(0, Parte(cs, monto, i)) else 0
  {
    hide Antes, Parte, Sum;
    if k == 0 {
      SumZero(Aplicar(cs, monto, p, k), DeCuota(cs[i].numero));
    } else {
      AplicarDeCuota(cs, monto, p, k - 1, i);
      var x, init := Parte(cs, monto, k - 1), Aplicar(cs, monto, p, k - 1);
      assert cs[k - 1].numero == cs[i].numero <==> i == k - 1;
      if x > 0 {
        assert Aplicar(cs, monto, p, k) == init + [Aplicacion(cs[k - 1].numero, p, x)];
        SumSnoc(init, Aplicacion(cs[k - 1].numero, p, x), DeCuota(cs[i].numero));
      } else {
        assert Aplicar(cs, monto, p, k) == init;
      }
    }
  }

  lemma {:induction false} AplicarRows(cs: seq<Cuota>, monto: int, p: nat, k: nat)
    requires k <= |cs| && NumerosDistintos(cs)
    ensures SinChoques(Aplicar(cs, monto, p, k))
    ensures forall i :: 0 <= i < |Aplicar(cs, monto, p, k)| ==>
              var a := Aplicar(cs, monto, p, k)[i];
              a.pago == p && a.monto > 0 && exists j :: 0 <= j < k && cs[j].numero == a.cuota && cs[j].saldo > 0
  {
    if k == 0 {
    } else {
      AplicarRows(cs, monto, p, k - 1);
      var init, all := Aplicar(cs, monto, p, k - 1), Aplicar(cs, monto, p, k);
      forall i | 0 <= i < |all|
        ensures all[i].pago == p && all[i].monto > 0
                && exists j :: 0 <= j < k && cs[j].numero == all[i].cuota && cs[j].saldo > 0
      {
        if i < |init| {
          var j :| 0 <= j < k - 1 && cs[j].numero == init[i].cuota && cs[j].saldo > 0;
          assert cs[j].numero == all[i].cuota;
        } else {
          assert cs[k - 1].numero == all[i].cuota;
        }
      }
    }
  }

  /** The schedule conflict cannot be reached: the open balances add up to the account balance. */
  lemma ConflictUnreachable(l: Ledger, d: PagoDto)
    requires RowsOk(l) && CuentaOk(l)
    ensures Registrar(l, d) != Refused(Conflict)
    ensures l.cuenta.Some? ==> Antes(l.cuotas, |l.cuotas|) == l.cuenta.value.saldoPendiente
  {
    AntesIsSaldo(l.cuotas, |l.cuotas|);
    assert l.cuotas[..|l.cuotas|] == l.cuotas;
  }

  lemma SameKeysKeepOrder(cs: seq<Cuota>, cs': seq<Cuota>)
    requires Ordenadas(cs) && NumerosDistintos(cs) && |cs'| == |cs|
    requires forall i :: 0 <= i < |cs| ==> cs'[i].numero == cs[i].numero && cs'[i].vence == cs[i].vence
    ensures Ordenadas(cs') && NumerosDistintos(cs')
  {
    forall i, j | 0 <= i < j < |cs| ensures AntesDe(cs'[i], cs'[j]) && cs'[i].numero != cs'[j].numero {
      assert AntesDe(cs[i], cs[j]);
    }
  }

  /** Rows after one operation: every old application keeps a matching installment. */
  lemma AplicacionMoves(a: Aplicacion, cs: seq<Cuota>, pagos: seq<Pago>, cs': seq<Cuota>, pagos': seq<Pago>)
    requires AplicacionOk(a, cs, pagos)
    requires |cs'| == |cs|
    requires forall i :: 0 <= i < |cs| ==> cs'[i].numero == cs[i].numero && Viva(cs'[i]) == Viva(cs[i])
    requires a.pago < |pagos'| && pagos'[a.pago].cobranza && pagos'[a.pago].activo == pagos[a.pago].activo
    ensures AplicacionOk(a, cs', pagos')
  {
    var j :| 0 <= j < |cs| && cs[j].numero == a.cuota && Viva(cs[j]) == pagos[a.pago].activo;
    assert cs'[j].numero == a.cuota && Viva(cs'[j]) == pagos'[a.pago].activo;
  }

  lemma RepartirKeepsCuotas(l: Ledger, monto: int, p: nat)
    requires RowsOk(l) && monto > 0
    ensures forall i :: 0 <= i < |l.cuotas| ==>
              && CuotaOk(Repartir(l.cuotas, monto)[i], l.aplicaciones + Aplicar(l.cuotas, monto, p, |l.cuotas|))
              && Viva(Repartir(l.cuotas, monto)[i]) == Viva(l.cuotas[i])
              && Repartir(l.cuotas, monto)[i].numero == l.cuotas[i].numero
  {
    var cs, n := l.cuotas, |l.cuotas|;
    var nuevas := Aplicar(cs, monto, p, n);
    forall i | 0 <= i < n
      ensures CuotaOk(Repartir(cs, monto)[i], l.aplicaciones + nuevas) && Viva(Repartir(cs, monto)[i]) == Viva(cs[i])
      ensures Repartir(cs, monto)[i].numero == cs[i].numero
    {
      assert CuotaOk(cs[i], l.aplicaciones);
      SumConcat(l.aplicaciones, nuevas, DeCuota(cs[i].numero));
      AplicarDeCuota(cs, monto, p, n, i);
      SumNonNegativeApps(l, cs[i].numero);
      ParteStep(cs, monto, i);
    }
  }

  lemma RegistrarKeepsAplicaciones(l: Ledger, d: PagoDto, cuenta: Cuenta, sesion: Option<nat>)
    requires RowsOk(l) && d.metodo.Some? && d.monto > 0
    ensures var r := Registrado(l, d, cuenta, sesion);
            forall i :: 0 <= i < |r.aplicaciones| ==> AplicacionOk(r.aplicaciones[i], r.cuotas, r.pagos)
  {
    hide Antes, Parte, Aplicar, Repartir, Abonar;
    var r, n, p := Registrado(l, d, cuenta, sesion), |l.cuotas|, |l.pagos|;
    var nuevas := Aplicar(l.cuotas, d.monto, p, n);
    AplicarRows(l.cuotas, d.monto, p, n);
    RepartirKeepsCuotas(l, d.monto, p);
    forall i | 0 <= i < |r.aplicaciones| ensures AplicacionOk(r.aplicaciones[i], r.cuotas, r.pagos) {
      var a := r.aplicaciones[i];
      if i < |l.aplicaciones| {
        AplicacionMoves(a, l.cuotas, l.pagos, r.cuotas, r.pagos);
      } else {
        assert a == nuevas[i - |l.aplicaciones|];
        var j :| 0 <= j < n && l.cuotas[j].numero == a.cuota && l.cuotas[j].saldo > 0;
        assert CuotaOk(l.cuotas[j], l.aplicaciones);
        assert r.cuotas[j].numero == a.cuota && Viva(r.cuotas[j]) == r.pagos[a.pago].activo;
      }
    }
  }

  lemma ConcatSinChoques(xs: seq<Aplicacion>, ys: seq<Aplicacion>)
    requires SinChoques(xs) && SinChoques(ys)
    requires forall i, j :: 0 <= i < |xs| && 0 <= j < |ys| ==> xs[i].pago != ys[j].pago
    ensures SinChoques(xs + ys)
  {
    forall i, j | 0 <= i < j < |xs + ys| ensures !Choque((xs + ys)[i], (xs + ys)[j]) {
      if |xs| <= j {
        assert (xs + ys)[j] == ys[j - |xs|];
      }
      if |xs| <= i {
        assert (xs + ys)[i] == ys[i - |xs|];
      }
    }
  }

  lemma RegistrarKeepsPagos(l: Ledger, d: PagoDto, cuenta: Cuenta, sesion: Option<nat>)
    requires RowsOk(l) && d.metodo.Some? && 0 < d.monto <= Antes(l.cuotas, |l.cuotas|)
    ensures var r := Registrado(l, d, cuenta, sesion);
            forall q :: 0 <= q < |r.pagos| ==> PagoOk(r.pagos, r.aplicaciones, q)
  {
    var r, p := Registrado(l, d, cuenta, sesion), |l.pagos|;
    var nuevas := Aplicar(l.cuotas, d.monto, p, |l.cuotas|);
    forall q | 0 <= q < |r.pagos| ensures PagoOk(r.pagos, r.aplicaciones, q) {
      SumConcat(l.aplicaciones, nuevas, DePago(q));
      AplicarDePago(l.cuotas, d.monto, p, |l.cuotas|, q);
      if q < p {
        assert PagoOk(l.pagos, l.aplicaciones, q);
      } else {
        forall i | 0 <= i < |l.aplicaciones| ensures DePago(p)(l.aplicaciones[i]) == 0 {
          assert AplicacionOk(l.aplicaciones[i], l.cuotas, l.pagos);
        }
        SumZero(l.aplicaciones, DePago(p));
      }
    }
  }

  lemma RegistrarKeepsChoques(l: Ledger, monto: int)
    requires RowsOk(l)
    ensures SinChoques(l.aplicaciones + Aplicar(l.cuotas, monto, |l.pagos|, |l.cuotas|))
  {
    AplicarRows(l.cuotas, monto, |l.pagos|, |l.cuotas|);
    forall i | 0 <= i < |l.aplicaciones| ensures l.aplicaciones[i].pago < |l.pagos| {
      assert AplicacionOk(l.aplicaciones[i], l.cuotas, l.pagos);
    }
    ConcatSinChoques(l.aplicaciones, Aplicar(l.cuotas, monto, |l.pagos|, |l.cuotas|));
  }

  lemma RegistrarKeepsRows(l: Ledger, d: PagoDto, cuenta: Cuenta, sesion: Option<nat>)
    requires RowsOk(l) && d.metodo.Some? && 0 < d.monto <= Antes(l.cuotas, |l.cuotas|)
    ensures RowsOk(Registrado(l, d, cuenta, sesion))
  {
    RegistrarKeepsChoques(l, d.monto);
    RepartirKeepsCuotas(l, d.monto, |l.pagos|);
    RegistrarKeepsAplicaciones(l, d, cuenta, sesion);
    RegistrarKeepsPagos(l, d, cuenta, sesion);
    SameKeysKeepOrder(l.cuotas, Repartir(l.cuotas, d.monto));
  }

  lemma RegistrarKeepsLedger(l: Ledger, d: PagoDto)
    requires LedgerOk(l)
    ensures LedgerOk(Registrar(l, d).After(l))
  {
    hide RowsOk, CashOk, Registrado, Sum, Antes;
    var o := Registrar(l, d);
    if o.Done? && o.state != l {
      ConflictUnreachable(l, d);
      var cuenta, sesion := l.cuenta.value, ResolverCaja(l.caja, d.caja).state;
      RegistrarKeepsRows(l, d, cuenta, sesion);
      RegistradoKeepsCuenta(l, d, cuenta, sesion);
      RegistradoKeepsCash(l, d, cuenta, sesion);
    }
  }

  lemma RegistradoKeepsCuenta(l: Ledger, d: PagoDto, cuenta: Cuenta, sesion: Option<nat>)
    requires l.cuenta == Some(cuenta) && CuentaOk(l) && d.metodo.Some? && 0 <= d.monto <= Antes(l.cuotas, |l.cuotas|)
    ensures CuentaOk(Registrado(l, d, cuenta, sesion))
  {
    var r := Registrado(l, d, cuenta, sesion);
    RepartirSum(l.cuotas, d.monto, |l.cuotas|);
    assert l.cuotas[..|l.cuotas|] == l.cuotas && r.cuotas[..|r.cuotas|] == r.cuotas;
  }

  lemma RegistradoKeepsCash(l: Ledger, d: PagoDto, cuenta: Cuenta, sesion: Option<nat>)
    requires CashOk(l) && d.metodo.Some? && (sesion.Some? ==> Abierta(l.caja, sesion.value))
    ensures CashOk(Registrado(l, d, cuenta, sesion))
  {
    hide CajaOk, Repartir, Aplicar;
    var r := Registrado(l, d, cuenta, sesion);
    AgregarKeepsCaja(l.caja, Cobro(sesion, |l.pagos|, d));
    forall i | 0 <= i < |r.caja.movimientos| ensures MovimientoOk(r.caja.movimientos[i], r.pagos) {
      if i < |l.caja.movimientos| {
        assert MovimientoOk(l.caja.movimientos[i], l.pagos);
      }
    }
  }

  // ---------------------------------------------------------------- annulPayment

  /** Deleting the applications of p leaves, for any other reading, all the rest. */
  lemma QuitarPago(apps: seq<Aplicacion>, p: nat, n: nat)
    ensures Sum(Filter(apps, NoDe(p)), DeCuota(n)) == Sum(apps, DeCuota(n)) - AplicadoA(apps, n, p)
    ensures forall q: nat :: Sum(Filter(apps, NoDe(p)), DePago(q)) == if q == p then 0 else Sum(apps, DePago(q))
  {
    var resto := (a: Aplicacion) => if a.cuota == n && a.pago != p then a.monto else 0;
    SumFilter(apps, NoDe(p), DeCuota(n), resto);
    SumSplit(apps, DeCuota(n), resto, DeAmbos(n, p));
    forall q: nat ensures Sum(Filter(apps, NoDe(p)), DePago(q)) == if q == p then 0 else Sum(apps, DePago(q)) {
      var g := (a: Aplicacion) => if a.pago != p && a.pago == q then a.monto else 0;
      SumFilter(apps, NoDe(p), DePago(q), g);
      if q == p {
        SumZero(apps, g);
      } else {
        SumMatch(apps, apps, g, DePago(q));
      }
    }
  }

  lemma AplicadoBounds(apps: seq<Aplicacion>, n: nat, p: nat)
    requires forall i :: 0 <= i < |apps| ==> apps[i].monto > 0
    ensures 0 <= AplicadoA(apps, n, p) <= Sum(apps, DeCuota(n))
  {
    SumNonNegative(apps, DeAmbos(n, p));
    SumMonotone(apps, DeAmbos(n, p), DeCuota(n));
  }

  /** Summed over the installments, the applications of one payment are its total. */
  lemma {:induction false} AplicadoOverCuotas(cs: seq<Cuota>, apps: seq<Aplicacion>, p: nat, g: Cuota -> int)
    requires NumerosDistintos(cs)
    requires forall k :: 0 <= k < |cs| ==> g(cs[k]) == AplicadoA(apps, cs[k].numero, p)
    requires forall i :: 0 <= i < |apps| && apps[i].pago == p ==> exists k :: 0 <= k < |cs| && cs[k].numero == apps[i].cuota
    ensures Sum(cs, g) == Sum(apps, DePago(p))
  {
    if |apps| == 0 {
      SumZero(cs, g);
    } else {
      var u, a := apps[..|apps| - 1], apps[|apps| - 1];
      var h := (c: Cuota) => AplicadoA(u, c.numero, p);
      var one := (c: Cuota) => DeAmbos(c.numero, p)(a);
      AplicadoOverCuotas(cs, u, p, h);
      SumSplit(cs, g, h, one);
      if a.pago == p {
        var k :| 0 <= k < |cs| && cs[k].numero == a.cuota;
        SumSingle(cs, one, k);
      } else {
        SumZero(cs, one);
      }
    }
  }

  /** The clamp to zero never fires: what is given back was paid. */
  lemma ClampNeverFires(l: Ledger, p: nat, i: nat)
    requires RowsOk(l) && p < |l.pagos| && l.pagos[p].activo && i < |l.cuotas|
    ensures var c, x := l.cuotas[i], AplicadoA(l.aplicaciones, l.cuotas[i].numero, p);
            && x >= 0
            && (x > 0 ==> Viva(c) && c.pagado - x >= 0)
  {
    var c, apps := l.cuotas[i], l.aplicaciones;
    assert CuotaOk(c, apps);
    forall k | 0 <= k < |apps| ensures apps[k].monto > 0 { assert AplicacionOk(apps[k], l.cuotas, l.pagos); }
    AplicadoBounds(apps, c.numero, p);
    if !Viva(c) {
      forall k | 0 <= k < |apps| ensures DeAmbos(c.numero, p)(apps[k]) == 0 {
        assert AplicacionOk(apps[k], l.cuotas, l.pagos);
      }
      SumZero(apps, DeAmbos(c.numero, p));
    }
  }

  lemma DeshacerKeepsCuotas(l: Ledger, p: nat)
    requires RowsOk(l) && p < |l.pagos| && l.pagos[p].activo
    ensures forall i :: 0 <= i < |l.cuotas| ==>
              && CuotaOk(Deshacer(l.cuotas, l.aplicaciones, p)[i], Filter(l.aplicaciones, NoDe(p)))
              && Viva(Deshacer(l.cuotas, l.aplicaciones, p)[i]) == Viva(l.cuotas[i])
  {
    var apps := l.aplicaciones;
    forall i | 0 <= i < |l.cuotas|
      ensures CuotaOk(Deshacer(l.cuotas, apps, p)[i], Filter(apps, NoDe(p)))
      ensures Viva(Deshacer(l.cuotas, apps, p)[i]) == Viva(l.cuotas[i])
    {
      assert CuotaOk(l.cuotas[i], apps);
      QuitarPago(apps, p, l.cuotas[i].numero);
      ClampNeverFires(l, p, i);
    }
  }

  lemma AnularKeepsRows(l: Ledger, p: nat)
    requires RowsOk(l) && AnularPago(l, p, false).Done?
    ensures RowsOk(AnularPago(l, p, false).state)
  {
    hide Reversas, OtraActiva, EnCajaCerrada, Sum;
    var r := AnularPago(l, p, false).state;
    var apps, apps' := l.aplicaciones, r.aplicaciones;
    DeshacerKeepsCuotas(l, p);
    SameKeysKeepOrder(l.cuotas, r.cuotas);
    FilterMembers(apps, NoDe(p));
    FilterKeepsDistinct(apps, NoDe(p), Choque);
    forall i | 0 <= i < |apps'| ensures AplicacionOk(apps'[i], r.cuotas, r.pagos) {
      var k :| 0 <= k < |apps| && apps[k] == apps'[i];
      AplicacionMoves(apps[k], l.cuotas, l.pagos, r.cuotas, r.pagos);
    }
    forall q | 0 <= q < |r.pagos| ensures PagoOk(r.pagos, apps', q) {
      assert PagoOk(l.pagos, apps, q);
      QuitarPago(apps, p, 0);
    }
  }

  /** An annulment gives the account balance exactly what it gives the installments. */
  lemma AnularSum(l: Ledger, p: nat)
    requires RowsOk(l) && AnularPago(l, p, false).Done?
    ensures Sum(Deshacer(l.cuotas, l.aplicaciones, p), SaldoDe()) == Sum(l.cuotas, SaldoDe()) + l.pagos[p].monto
  {
    var apps := l.aplicaciones;
    var g := (c: Cuota) => AplicadoA(apps, c.numero, p);
    forall i | 0 <= i < |apps| && apps[i].pago == p
      ensures exists k :: 0 <= k < |l.cuotas| && l.cuotas[k].numero == apps[i].cuota
    {
      assert AplicacionOk(apps[i], l.cuotas, l.pagos);
    }
    AplicadoOverCuotas(l.cuotas, apps, p, g);
    assert PagoOk(l.pagos, apps, p);
    var mas := (c: Cuota) => c.saldo + g(c);
    SumSplit(l.cuotas, mas, SaldoDe(), g);
    SumMatch(Deshacer(l.cuotas, apps, p), l.cuotas, SaldoDe(), mas);
  }

  lemma AnularKeepsCash(l: Ledger, p: nat)
    requires CashOk(l) && AnularPago(l, p, false).Done?
    ensures CashOk(AnularPago(l, p, false).state)
    ensures Sum(AnularPago(l, p, false).state.caja.movimientos, CajaDePago(p)) == 0
  {
    hide Deshacer, OtraActiva, CajaOk, Sum;
    var r := AnularPago(l, p, false).state;
    var movs := l.caja.movimientos;
    var mios, nuevos := Filter(movs, MovDe(p)), Reversas(movs, p, l.pagos[p]);
    FilterMembers(movs, MovDe(p));
    forall k | 0 <= k < |nuevos| ensures Abierta(l.caja, nuevos[k].sesion) && nuevos[k].tipo != Apertura
                                         && mios[k].monto == l.pagos[p].monto {
      var j :| 0 <= j < |movs| && movs[j] == mios[k];
      assert MovimientoOk(movs[j], l.pagos);
    }
    AgregarKeepsCaja(l.caja, nuevos);
    forall i | 0 <= i < |r.caja.movimientos| ensures MovimientoOk(r.caja.movimientos[i], r.pagos) {
      if i < |movs| {
        assert MovimientoOk(movs[i], l.pagos);
      }
    }
    SumConcat(movs, nuevos, CajaDePago(p));
    var neg := (m: Movimiento) => -m.monto;
    SumFilter(movs, MovDe(p), Monto(), CajaDePago(p));
    SumMatch(nuevos, mios, CajaDePago(p), neg);
    SumNegate(mios, Monto(), neg);
  }

  lemma AnularKeepsLedger(l: Ledger, p: nat, razonVacia: bool)
    requires LedgerOk(l)
    ensures LedgerOk(AnularPago(l, p, razonVacia).After(l))
  {
    if AnularPago(l, p, razonVacia).Done? {
      AnularKeepsRows(l, p);
      AnularSum(l, p);
      AnularKeepsCash(l, p);
    }
  }

  // ---------------------------------------------------------------- debit note

  lemma {:induction false} MayorNumeroBounds(cs: seq<Cuota>)
    ensures forall i :: 0 <= i < |cs| ==> cs[i].numero <= MayorNumero(cs)
  {
    if |cs| == 0 {
    } else {
      MayorNumeroBounds(cs[..|cs| - 1]);
    }
  }

  lemma {:induction false} LugarSplits(cs: seq<Cuota>, c: Cuota)
    requires Ordenadas(cs) && forall i :: 0 <= i < |cs| ==> cs[i].numero != c.numero
    ensures forall i :: 0 <= i < Lugar(cs, c) ==> AntesDe(cs[i], c)
    ensures forall i :: Lugar(cs, c) <= i < |cs| ==> AntesDe(c, cs[i])
  {
    if |cs| == 0 || AntesDe(cs[|cs| - 1], c) {
    } else {
      var u := cs[..|cs| - 1];
      LugarSplits(u, c);
      assert forall i :: 0 <= i < |u| ==> u[i] == cs[i];
    }
  }

  lemma InsertarSum(cs: seq<Cuota>, c: Cuota, f: Cuota -> int)
    ensures Sum(Insertar(cs, c), f) == Sum(cs, f) + f(c)
  {
    var k := Lugar(cs, c);
    SumSnoc(cs[..k], c, f);
    SumConcat(cs[..k] + [c], cs[k..], f);
    SumConcat(cs[..k], cs[k..], f);
    assert cs[..k] + cs[k..] == cs;
  }

  /** The number of the new installment is fresh. */
  lemma NuevaCuotaIsFresh(cs: seq<Cuota>, vence: int, total: int)
    ensures forall i :: 0 <= i < |cs| ==> cs[i].numero != NuevaCuota(cs, vence, total).numero
  {
    MayorNumeroBounds(cs);
  }

  lemma InsertarIndices(cs: seq<Cuota>, c: Cuota)
    ensures |Insertar(cs, c)| == |cs| + 1
    ensures forall i :: 0 <= i <= |cs| ==>
              Insertar(cs, c)[i] == if i < Lugar(cs, c) then cs[i] else if i == Lugar(cs, c) then c else cs[i - 1]
  {
  }

  lemma InsertarKeepsOrder(cs: seq<Cuota>, c: Cuota)
    requires Ordenadas(cs) && NumerosDistintos(cs) && forall i :: 0 <= i < |cs| ==> cs[i].numero != c.numero
    ensures Ordenadas(Insertar(cs, c)) && NumerosDistintos(Insertar(cs, c))
  {
    InsertarIndices(cs, c);
    LugarSplits(cs, c);
  }

  /** No application names a fresh installment number. */
  lemma FreshIsUnpaid(l: Ledger, n: nat)
    requires RowsOk(l) && forall i :: 0 <= i < |l.cuotas| ==> l.cuotas[i].numero != n
    ensures Sum(l.aplicaciones, DeCuota(n)) == 0
  {
    forall j | 0 <= j < |l.aplicaciones| ensures DeCuota(n)(l.aplicaciones[j]) == 0 {
      assert AplicacionOk(l.aplicaciones[j], l.cuotas, l.pagos);
    }
    SumZero(l.aplicaciones, DeCuota(n));
  }

  lemma InsertarKeepsAplicacion(a: Aplicacion, cs: seq<Cuota>, pagos: seq<Pago>, c: Cuota)
    requires AplicacionOk(a, cs, pagos)
    ensures AplicacionOk(a, Insertar(cs, c), pagos)
  {
    InsertarIndices(cs, c);
    var j :| 0 <= j < |cs| && cs[j].numero == a.cuota && Viva(cs[j]) == pagos[a.pago].activo;
    var j' := if j < Lugar(cs, c) then j else j + 1;
    assert Insertar(cs, c)[j'] == cs[j];
  }

  lemma InsertarKeepsRows(l: Ledger, total: int, vence: int)
    requires RowsOk(l) && total >= 0
    ensures RowsOk(l.(cuotas := Insertar(l.cuotas, NuevaCuota(l.cuotas, vence, total))))
  {
    var cs, c := l.cuotas, NuevaCuota(l.cuotas, vence, total);
    NuevaCuotaIsFresh(cs, vence, total);
    FreshIsUnpaid(l, c.numero);
    InsertarKeepsOrder(cs, c);
    forall i | 0 <= i < |Insertar(cs, c)| ensures CuotaOk(Insertar(cs, c)[i], l.aplicaciones) {
      InsertarIndices(cs, c);
    }
    forall i | 0 <= i < |l.aplicaciones| ensures AplicacionOk(l.aplicaciones[i], Insertar(cs, c), l.pagos) {
      InsertarKeepsAplicacion(l.aplicaciones[i], cs, l.pagos, c);
    }
  }

  lemma DebitoKeepsLedger(l: Ledger, ventaTotal: int, total: int, vence: int)
    requires LedgerOk(l) && total >= 0
    ensures LedgerOk(CargarDebito(l, ventaTotal, total, vence))
  {
    if l.cuenta.Some? {
      InsertarKeepsRows(l, total, vence);
      InsertarSum(l.cuotas, NuevaCuota(l.cuotas, vence, total), SaldoDe());
    }
  }

  // ---------------------------------------------------------------- partial credit note

  lemma {:induction false} DespuesNonNegative(cs: seq<Cuota>, k: nat)
    requires k <= |cs|
    ensures Despues(cs, k) >= 0
    ensures k < |cs| ==> Despues(cs, k) >= Despues(cs, k + 1)
    decreases |cs| - k
  {
    if k == |cs| {
    } else {
      DespuesNonNegative(cs, k + 1);
    }
  }

  lemma {:induction false} DespuesIsAntes(cs: seq<Cuota>, k: nat)
    requires k <= |cs|
    ensures Antes(cs, k) + Despues(cs, k) == Antes(cs, |cs|)
    decreases |cs| - k
  {
    if k == |cs| {
    } else {
      DespuesIsAntes(cs, k + 1);
    }
  }

  /** Walking from the last due, the reductions met so far are the note total, up to the open balance. */
  lemma {:induction false} RebajarSum(cs: seq<Cuota>, total: int, k: nat)
    requires k <= |cs| && total >= 0
    ensures Sum(RebajarTodas(cs, total)[..k], SaldoDe())
            == Sum(cs[..k], SaldoDe()) - (Min(total, Despues(cs, 0)) - Min(total, Despues(cs, k)))
  {
    DespuesNonNegative(cs, k);
    if k == 0 {
    } else {
      RebajarSum(cs, total, k - 1);
      DespuesNonNegative(cs, k - 1);
      SumPrefix(cs, k - 1, SaldoDe());
      SumPrefix(RebajarTodas(cs, total), k - 1, SaldoDe());
    }
  }

  lemma RebajarKeepsCuota(l: Ledger, total: int, i: nat)
    requires RowsOk(l) && i < |l.cuotas|
    ensures var c := RebajarTodas(l.cuotas, total)[i];
            && CuotaOk(c, l.aplicaciones) && Viva(c) == Viva(l.cuotas[i])
            && c.numero == l.cuotas[i].numero && c.vence == l.cuotas[i].vence
  {
    hide Despues;
    assert CuotaOk(l.cuotas[i], l.aplicaciones);
    SumNonNegativeApps(l, l.cuotas[i].numero);
  }

  lemma RebajarKeepsCuotas(l: Ledger, total: int)
    requires RowsOk(l)
    ensures RowsOk(l.(cuotas := RebajarTodas(l.cuotas, total)))
  {
    hide Rebaja, Sum, Despues;
    var cs' := RebajarTodas(l.cuotas, total);
    forall i | 0 <= i < |cs'|
      ensures CuotaOk(cs'[i], l.aplicaciones) && Viva(cs'[i]) == Viva(l.cuotas[i])
      ensures cs'[i].numero == l.cuotas[i].numero && cs'[i].vence == l.cuotas[i].vence
    {
      RebajarKeepsCuota(l, total, i);
    }
    SameKeysKeepOrder(l.cuotas, cs');
    forall i | 0 <= i < |l.aplicaciones| ensures AplicacionOk(l.aplicaciones[i], cs', l.pagos) {
      AplicacionMoves(l.aplicaciones[i], l.cuotas, l.pagos, cs', l.pagos);
    }
  }

  lemma SumNonNegativeApps(l: Ledger, n: nat)
    requires RowsOk(l)
    ensures Sum(l.aplicaciones, DeCuota(n)) >= 0
  {
    forall k | 0 <= k < |l.aplicaciones| ensures DeCuota(n)(l.aplicaciones[k]) >= 0 {
      assert AplicacionOk(l.aplicaciones[k], l.cuotas, l.pagos);
    }
    SumNonNegative(l.aplicaciones, DeCuota(n));
  }

  lemma RebajarTotal(l: Ledger, total: int)
    requires RowsOk(l) && l.cuenta.Some? && CuentaOk(l) && total >= 0
    ensures Sum(RebajarTodas(l.cuotas, total), SaldoDe()) == Max(l.cuenta.value.saldoPendiente - total, 0)
  {
    var n := |l.cuotas|;
    RebajarSum(l.cuotas, total, n);
    DespuesIsAntes(l.cuotas, 0);
    AntesIsSaldo(l.cuotas, n);
    assert l.cuotas[..n] == l.cuotas && RebajarTodas(l.cuotas, total)[..n] == RebajarTodas(l.cuotas, total);
  }

  lemma NotaParcialKeepsLedger(l: Ledger, total: int)
    requires LedgerOk(l) && total >= 0
    ensures LedgerOk(AcreditarNota(l, total, false))
  {
    if l.cuenta.Some? && l.cuenta.value.estado != Anulada {
      RebajarKeepsCuotas(l, total);
      RebajarTotal(l, total);
    }
  }

  /** An account that a credit note of this total settles, or leaves alone. */
  predicate Saldada(l: Ledger, total: int) {
    l.cuenta.None? || l.cuenta.value.estado == Anulada || total >= l.cuenta.value.saldoPendiente
  }

  /** A note that covers the balance brings every open installment to zero. */
  lemma CoveringNoteSettles(l: Ledger, total: int, i: nat)
    requires RowsOk(l) && l.cuenta.Some? && CuentaOk(l) && total >= l.cuenta.value.saldoPendiente && total >= 0
    requires i < |l.cuotas|
    ensures RebajarTodas(l.cuotas, total)[i].saldo == 0
  {
    hide Rebaja, Despues;
    RebajarTotal(l, total);
    RebajarKeepsCuotas(l, total);
    var cs := RebajarTodas(l.cuotas, total);
    forall k | 0 <= k < |cs| ensures SaldoDe()(cs[k]) >= 0 { assert CuotaOk(cs[k], l.aplicaciones); }
    SumNonNegative(cs, SaldoDe());
    assert SaldoDe()(cs[i]) <= Sum(cs, SaldoDe());
  }

  /**
   A total return (motive 06) cancels every installment but keeps on the account whatever the note
   does not cover, so the ledger survives it exactly when the note covers the balance.
   */
  lemma NotaTotalKeepsLedgerIff(l: Ledger, total: int)
    requires LedgerOk(l) && total >= 0
    ensures LedgerOk(AcreditarNota(l, total, true)) <==> Saldada(l, total)
  {
    hide CajaOk, RebajarTodas;
    if l.cuenta.Some? && l.cuenta.value.estado != Anulada {
      var r, cs := AcreditarNota(l, total, true), RebajarTodas(l.cuotas, total);
      RebajarKeepsCuotas(l, total);
      RebajarTotal(l, total);
      if Saldada(l, total) {
        forall i | 0 <= i < |cs| ensures r.cuotas[i] == cs[i] { CoveringNoteSettles(l, total, i); }
        assert r.cuotas == cs;
      } else {
        forall i | 0 <= i < |r.cuotas| ensures SaldoDe()(r.cuotas[i]) == 0 { assert CuotaOk(cs[i], l.aplicaciones); }
        SumZero(r.cuotas, SaldoDe());
      }
    }
  }

  // ---------------------------------------------------------------- void

  lemma RequestKeepsLedger(l: Ledger)
    requires LedgerOk(l)
    ensures LedgerOk(PedirBaja(l)) && LedgerOk(Restaurar(l))
  {
  }

  lemma RevertirKeepsLedger(l: Ledger)
    requires LedgerOk(l)
    ensures LedgerOk(Revertir(l))
  {
    hide CashOk;
    RevertirRows(l);
    SumZero(Revertir(l).cuotas, SaldoDe());
    RevertirCash(l);
  }

  lemma RevertirRows(l: Ledger)
    requires RowsOk(l) && (l.cuenta.None? ==> l.cuotas == [] && l.aplicaciones == [])
    ensures RowsOk(Revertir(l))
  {
    hide ReversasDeVenta, Sum;
    var r := Revertir(l);
    SameKeysKeepOrder(l.cuotas, r.cuotas);
    forall i | 0 <= i < |l.aplicaciones| ensures AplicacionOk(l.aplicaciones[i], r.cuotas, r.pagos) {
      var a := l.aplicaciones[i];
      assert AplicacionOk(a, l.cuotas, l.pagos);
      var j :| 0 <= j < |l.cuotas| && l.cuotas[j].numero == a.cuota;
      assert r.cuotas[j].numero == a.cuota && !Viva(r.cuotas[j]);
    }
    forall i | 0 <= i < |r.cuotas| ensures CuotaOk(r.cuotas[i], r.aplicaciones) {
      assert CuotaOk(l.cuotas[i], l.aplicaciones);
    }
  }

  lemma RevertirCash(l: Ledger)
    requires CashOk(l)
    ensures CashOk(Revertir(l))
  {
    var r, movs, nuevos := Revertir(l), l.caja.movimientos, ReversasDeVenta(l);
    FilterMembers(movs, Reversible(l));
    AgregarKeepsCaja(l.caja, nuevos);
    forall i | 0 <= i < |r.caja.movimientos| ensures MovimientoOk(r.caja.movimientos[i], r.pagos) {
      if i < |movs| {
        assert MovimientoOk(movs[i], l.pagos);
      }
    }
  }
}
