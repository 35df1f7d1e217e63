/**
 The transactions of the receivable services as they are written: rows read once, loops that
 update them one by one, one commit at the end. Each method is proved to leave exactly the rows
 its specification function says, and so to keep `LedgerOk`.
 */
module ReceivableService {
  import opened Sums
  import opened Wrappers
  import opened CashRegister
  import opened Receivable
  import opened ReceivableLaws

  /** UPDATE ... WHERE: the row of an installment number. */
  function Fila(cs: seq<Cuota>, n: nat): (k: nat)
    requires exists i :: 0 <= i < |cs| && cs[i].numero == n
    ensures k < |cs| && cs[k].numero == n
    decreases |cs|
  {
    if cs[0].numero == n then 0 else Fila(cs[1..], n) + 1
  }

  lemma {:induction false} AplicarTail(cs: seq<Cuota>, monto: int, p: nat, i: nat, n: nat)
    requires i <= n <= |cs| && monto <= Antes(cs, i)
    ensures Aplicar(cs, monto, p, n) == Aplicar(cs, monto, p, i)
    ensures i < n ==> Parte(cs, monto, n - 1) <= 0
  {
    if i == n {
    } else {
      AplicarTail(cs, monto, p, i, n - 1);
      AntesNonNegative(cs, i, n - 1);
    }
  }

  /** One turn of the waterfall loop against its closed form. */
  lemma WaterfallTurn(cs: seq<Cuota>, monto: int, p: nat, i: nat, remaining: int)
    requires i < |cs| && remaining == Max(0, monto - Antes(cs, i)) && remaining > 0
    ensures Parte(cs, monto, i) == if cs[i].saldo > 0 then Min(remaining, cs[i].saldo) else 0
    ensures Max(0, monto - Antes(cs, i + 1)) == remaining - Parte(cs, monto, i)
    ensures Aplicar(cs, monto, p, i + 1) == Aplicar(cs, monto, p, i) +
              (if cs[i].saldo > 0 then [Aplicacion(cs[i].numero, p, Min(remaining, cs[i].saldo))] else [])
  {
  }

  /** The rows after i turns of the loop. */
  ghost function Avance(cs: seq<Cuota>, monto: int, i: nat): (r: seq<Cuota>)
    requires i <= |cs|
    ensures |r| == |cs|
  {
    if i == 0 then cs else Avance(cs, monto, i - 1)[i - 1 := Abonar(cs[i - 1], Parte(cs, monto, i - 1))]
  }

  lemma {:induction false} AvanceRows(cs: seq<Cuota>, monto: int, i: nat, k: nat)
    requires i <= |cs| && k < |cs|
    ensures Avance(cs, monto, i)[k] == if k < i then Abonar(cs[k], Parte(cs, monto, k)) else cs[k]
  {
    if i == 0 {
    } else {
      AvanceRows(cs, monto, i - 1, k);
    }
  }

  lemma AvanceTurn(cs: seq<Cuota>, monto: int, i: nat)
    requires i < |cs|
    ensures Avance(cs, monto, i + 1) == if Parte(cs, monto, i) <= 0 then Avance(cs, monto, i)
              else Avance(cs, monto, i)[i := Abonar(cs[i], Parte(cs, monto, i))]
  {
    AvanceRows(cs, monto, i, i);
    assert Avance(cs, monto, i)[i := cs[i]] == Avance(cs, monto, i);
  }

  lemma AvanceStopsAt(cs: seq<Cuota>, monto: int, i: nat, k: nat)
    requires i <= |cs| && k < |cs| && (i < |cs| ==> monto <= Antes(cs, i))
    ensures Avance(cs, monto, i)[k] == Abonar(cs[k], Parte(cs, monto, k))
  {
    AvanceRows(cs, monto, i, k);
    if i <= k {
      AplicarTail(cs, monto, 0, i, k + 1);
    }
  }

  /** Leaving the loop early leaves no row out. */
  lemma AvanceStops(cs: seq<Cuota>, monto: int, i: nat)
    requires i <= |cs| && (i < |cs| ==> monto <= Antes(cs, i))
    ensures Avance(cs, monto, i) == Repartir(cs, monto)
  {
    forall k | 0 <= k < |cs| ensures Avance(cs, monto, i)[k] == Repartir(cs, monto)[k] {
      AvanceStopsAt(cs, monto, i, k);
    }
  }

  lemma RestoStops(cs: seq<Cuota>, monto: int, i: nat)
    requires i <= |cs| && (i < |cs| ==> monto <= Antes(cs, i))
    ensures Max(0, monto - Antes(cs, |cs|)) == Max(0, monto - Antes(cs, i))
  {
    if i < |cs| {
      AntesNonNegative(cs, i, |cs|);
    }
  }

  lemma WaterfallBegins(cs: seq<Cuota>, monto: int)
    ensures Avance(cs, monto, 0) == cs
  {
  }

  /** The waterfall loop: oldest due first, only rows with a balance, until the money is gone. */
  method Waterfall(cs: seq<Cuota>, monto: int, pago: nat)
    returns (filas: seq<Cuota>, nuevas: seq<Aplicacion>, remaining: int)
    requires monto > 0
    ensures remaining == Max(0, monto - Antes(cs, |cs|))
    ensures filas == Repartir(cs, monto)
    ensures nuevas == Aplicar(cs, monto, pago, |cs|)
  {
    hide Parte, Avance, Repartir;
    filas, nuevas, remaining := cs, [], monto;
    var i := 0;
    WaterfallBegins(cs, monto);
    while i < |cs| && remaining > 0
      invariant 0 <= i <= |cs|
      invariant remaining == Max(0, monto - Antes(cs, i))
      invariant filas == Avance(cs, monto, i)
      invariant nuevas == Aplicar(cs, monto, pago, i)
    {
      var installment := cs[i];
      AvanceTurn(cs, monto, i);
      WaterfallTurn(cs, monto, pago, i, remaining);
      if installment.saldo > 0 {
        var applied := Min(remaining, installment.saldo);
        var nextBalance := installment.saldo - applied;
        filas := filas[i := installment.(pagado := installment.pagado + applied, saldo := nextBalance,
                                         estado := if nextBalance == 0 then CuotaPagada else CuotaParcial)];
        nuevas := nuevas + [Aplicacion(installment.numero, pago, applied)];
        remaining := remaining - applied;
      }
      i := i + 1;
    }
    AvanceStops(cs, monto, i);
    RestoStops(cs, monto, i);
    if i < |cs| {
      AplicarTail(cs, monto, pago, i, |cs|);
    }
  }

  /** The rows once the reverse loop has met the installments from i on. */
  ghost function Retroceso(cs: seq<Cuota>, total: int, i: nat): (r: seq<Cuota>)
    requires i <= |cs|
    ensures |r| == |cs|
    decreases |cs| - i
  {
    if i == |cs| then cs else Retroceso(cs, total, i + 1)[i := Rebajar(cs[i], Rebaja(cs, total, i))]
  }

  lemma {:induction false} RetrocesoRows(cs: seq<Cuota>, total: int, i: nat, k: nat)
    requires i <= |cs| && k < |cs|
    ensures Retroceso(cs, total, i)[k] == if k >= i then Rebajar(cs[k], Rebaja(cs, total, k)) else cs[k]
    decreases |cs| - i
  {
    hide Rebaja, Rebajar;
    if i == |cs| {
    } else {
      RetrocesoRows(cs, total, i + 1, k);
    }
  }

  /** One turn of the reverse loop against its closed form. */
  lemma ReduceTurn(cs: seq<Cuota>, total: int, i: nat, reduction: int)
    requires i < |cs| && reduction == Max(0, total - Despues(cs, i + 1)) && reduction > 0
    ensures Rebaja(cs, total, i) == if cs[i].saldo > 0 then Min(reduction, cs[i].saldo) else 0
    ensures Max(0, total - Despues(cs, i)) == reduction - Rebaja(cs, total, i)
    ensures Retroceso(cs, total, i) == if Rebaja(cs, total, i) <= 0 then Retroceso(cs, total, i + 1)
              else Retroceso(cs, total, i + 1)[i := Rebajar(cs[i], Rebaja(cs, total, i))]
  {
    RetrocesoRows(cs, total, i + 1, i);
    assert Retroceso(cs, total, i + 1)[i := cs[i]] == Retroceso(cs, total, i + 1);
  }

  lemma ReduceStopsAt(cs: seq<Cuota>, total: int, i: nat, k: nat)
    requires k < i <= |cs| && total <= Despues(cs, i)
    ensures Rebajar(cs[k], Rebaja(cs, total, k)) == cs[k]
  {
    DespuesMonotone(cs, k + 1, i);
  }

  /** Leaving the loop early leaves no row out. */
  lemma ReduceStops(cs: seq<Cuota>, total: int, i: nat)
    requires i <= |cs| && (i > 0 ==> total <= Despues(cs, i))
    ensures Retroceso(cs, total, i) == RebajarTodas(cs, total)
  {
    hide Rebaja, Rebajar, Retroceso;
    forall k | 0 <= k < |cs| ensures Retroceso(cs, total, i)[k] == RebajarTodas(cs, total)[k] {
      RetrocesoRows(cs, total, i, k);
      if k < i { ReduceStopsAt(cs, total, i, k); }
    }
  }

  /** The credit-note loop: last due first, shrinking what each installment still asks for. */
  method Reduce(cs: seq<Cuota>, total: int) returns (filas: seq<Cuota>)
    requires total >= 0
    ensures filas == RebajarTodas(cs, total)
  {
    hide Rebaja, Retroceso, RebajarTodas;
    filas := cs;
    var reduction, i := total, |cs|;
    ReduceBegins(cs, total);
    while i > 0 && reduction > 0
      invariant 0 <= i <= |cs|
      invariant reduction == Max(0, total - Despues(cs, i))
      invariant filas == Retroceso(cs, total, i)
    {
      i := i - 1;
      var installment := cs[i];
      ReduceTurn(cs, total, i, reduction);
      if installment.saldo > 0 {
        var applied := Min(reduction, installment.saldo);
        var nextBalance := installment.saldo - applied;
        filas := filas[i := installment.(original := installment.pagado + nextBalance, saldo := nextBalance,
                                         estado := if nextBalance == 0 then CuotaPagada
                                                   else if installment.pagado > 0 then CuotaParcial else CuotaPendiente)];
        reduction := reduction - applied;
      }
    }
    ReduceStops(cs, total, i);
  }

  lemma ReduceBegins(cs: seq<Cuota>, total: int)
    ensures Retroceso(cs, total, |cs|) == cs && Despues(cs, |cs|) == 0
  {
  }

  class ReceivableTables {
    var cuenta: Option<Cuenta>
    var cuotas: seq<Cuota>
    var pagos: seq<Pago>
    var aplicaciones: seq<Aplicacion>
    var caja: Caja

    ghost function Rows(): Ledger
      reads this
    {
      Ledger(cuenta, cuotas, pagos, aplicaciones, caja)
    }

    ghost predicate Valid()
      reads this
    {
      LedgerOk(Rows())
    }

    constructor (l: Ledger)
      requires Inicial(l)
      ensures Valid() && Rows() == l
    {
      cuenta, cuotas, pagos, aplicaciones, caja := l.cuenta, l.cuotas, l.pagos, l.aplicaciones, l.caja;
      new;
      InicialIsOk(l);
    }

    method RegisterPayment(d: PagoDto) returns (error: Option<ApiError>)
      modifies this
      ensures Rows() == Registrar(old(Rows()), d).After(old(Rows()))
      ensures error == match Registrar(old(Rows()), d) case Done(_) => None case Refused(e) => Some(e)
    {
      hide Antes, Repartir, Aplicar, BuscarAbierta;
      ghost var before := Rows();
      if d.monto <= 0 { return Some(BadRequest); }
      if cuenta.None? { return Some(NotFound); }
      if Repetido(pagos, d.requestId) { return None; }
      if d.metodo.None? { return Some(NotFound); }
      if d.recibido.Some? && d.recibido.value <= 0 { return Some(BadRequest); }
      var received := if d.recibido.Some? then d.recibido.value else d.monto;
      if received < d.monto { return Some(BadRequest); }
      if !d.metodo.value.permiteVuelto && received != d.monto { return Some(BadRequest); }
      var account := cuenta.value;
      if account.estado == Anulada || account.estado == AnulacionPendiente { return Some(BadRequest); }
      if d.monto > account.saldoPendiente { return Some(BadRequest); }
      var session := ResolverCaja(caja, d.caja);
      if session.Refused? { return Some(session.error); }
      var filas, nuevas, remaining := Waterfall(cuotas, d.monto, |pagos|);
      if remaining > 0 { return Some(Conflict); }
      var vuelto := if d.metodo.value.permiteVuelto then received - d.monto else 0;
      var nextBalance := account.saldoPendiente - d.monto;
      ghost var after := Registrado(before, d, account, session.state);
      if session.state.Some? {
        caja := caja.(movimientos := caja.movimientos +
          [Movimiento(session.state.value, Some(|pagos|), Some(d.metodo.value.id), Cobranza, d.monto)]);
      }
      pagos := pagos + [Pago(true, Some(d.requestId), d.metodo.value.id, d.monto, vuelto, true)];
      cuotas, aplicaciones := filas, aplicaciones + nuevas;
      cuenta := Some(account.(saldoPendiente := nextBalance, estado := if nextBalance == 0 then Pagada else Parcial));
      assert caja == after.caja;
      assert pagos == after.pagos && cuotas == after.cuotas && aplicaciones == after.aplicaciones;
      assert Rows() == after;
      return None;
    }

    /** The annulment loop: one installment write per application, computed from the row as first read. */
    method GiveBack(p: nat) returns (filas: seq<Cuota>)
      requires RowsOk(Rows()) && p < |pagos| && pagos[p].activo
      ensures filas == Deshacer(cuotas, aplicaciones, p)
    {
      hide RowsOk, Deshacer;
      filas := cuotas;
      var j := 0;
      GiveBackBegins(cuotas, p);
      assert aplicaciones[..0] == [];
      while j < |aplicaciones|
        invariant 0 <= j <= |aplicaciones|
        invariant filas == Deshacer(cuotas, aplicaciones[..j], p)
      {
        var application := aplicaciones[j];
        GiveBackTurn(Rows(), j, p);
        if application.pago == p {
          var k := Fila(cuotas, application.cuota);
          var nextPaid := Max(cuotas[k].pagado - application.monto, 0);
          filas := filas[k := cuotas[k].(pagado := nextPaid, saldo := cuotas[k].saldo + application.monto,
                                         estado := if nextPaid == 0 then CuotaPendiente else CuotaParcial)];
        }
        j := j + 1;
      }
      assert aplicaciones[..j] == aplicaciones;
    }

    method AnnulPayment(p: nat, razonVacia: bool) returns (error: Option<ApiError>)
      requires Valid()
      modifies this
      ensures Rows() == AnularPago(old(Rows()), p, razonVacia).After(old(Rows()))
      ensures error == match AnularPago(old(Rows()), p, razonVacia) case Done(_) => None case Refused(e) => Some(e)
    {
      hide RowsOk, CuentaOk, CashOk, Deshacer, Reversas, Filter;
      if razonVacia { return Some(BadRequest); }
      if p >= |pagos| || !pagos[p].cobranza || cuenta.None? { return Some(NotFound); }
      var payment := pagos[p];
      if !payment.activo { return Some(BadRequest); }
      if EnCajaCerrada(caja, p) { return Some(BadRequest); }
      if cuenta.value.estado == Anulada { return Some(BadRequest); }
      var filas := GiveBack(p);
      var account := cuenta.value;
      var others := OtraActiva(pagos, p);
      cuotas := filas;
      aplicaciones := Filter(aplicaciones, NoDe(p));
      pagos := pagos[p := payment.(activo := false)];
      cuenta := Some(account.(saldoPendiente := account.saldoPendiente + payment.monto,
                              estado := if others || account.adelanto > 0 then Parcial else Pendiente));
      caja := Agregar(caja, Reversas(caja.movimientos, p, payment));
      return None;
    }

    method ApplyPartialCreditNote(total: nat)
      modifies this
      ensures Rows() == AcreditarNota(old(Rows()), total, false)
    {
      if cuenta.None? || cuenta.value.estado == Anulada { return; }
      var account := cuenta.value;
      var filas := Reduce(cuotas, total);
      var nextBalance := Max(account.saldoPendiente - total, 0);
      cuotas := filas;
      cuenta := Some(account.(totalVenta := Max(account.totalVenta - total, 0), saldoPendiente := nextBalance,
                              saldoFavor := account.saldoFavor + Max(total - account.saldoPendiente, 0),
                              estado := if nextBalance == 0 then Pagada else Parcial));
    }

    /** The account part of an accepted debit note, with the reduce that finds the next number. */
    method ApplyDebitNote(ventaTotal: int, total: nat, vence: int)
      modifies this
      ensures Rows() == CargarDebito(old(Rows()), ventaTotal, total, vence)
    {
      if cuenta.Some? {
        var account := cuenta.value;
        var mayor := 0;
        assert cuotas[..0] == [];
        for i := 0 to |cuotas|
          invariant mayor == MayorNumero(cuotas[..i])
        {
          assert cuotas[..i + 1][..i] == cuotas[..i];
          mayor := Max(mayor, cuotas[i].numero);
        }
        assert cuotas[..|cuotas|] == cuotas;
        cuotas := Insertar(cuotas, Cuota(mayor + 1, vence, total, 0, total, CuotaPendiente));
        cuenta := Some(account.(totalVenta := account.totalVenta + total, saldoInicial := account.saldoInicial + total,
                                saldoPendiente := account.saldoPendiente + total,
                                estado := if account.adelanto > 0 then Parcial else Pendiente));
      } else {
        cuenta := Some(Cuenta(ventaTotal + total, ventaTotal, total, total, 0, Parcial));
        cuotas := [Cuota(1, vence, total, 0, total, CuotaPendiente)];
      }
    }
  }

  lemma {:induction false} DespuesMonotone(cs: seq<Cuota>, j: nat, k: nat)
    requires j <= k <= |cs|
    ensures Despues(cs, j) >= Despues(cs, k)
    decreases k - j
  {
    if j == k {
    } else {
      DespuesMonotone(cs, j + 1, k);
      DespuesNonNegative(cs, j);
    }
  }

  lemma GiveBackBegins(cs: seq<Cuota>, p: nat)
    ensures Deshacer(cs, [], p) == cs
  {
  }

  /** One turn of the annulment loop: application j, if it is of payment p, is its installment's only one. */
  lemma GiveBackTurn(l: Ledger, j: nat, p: nat)
    requires RowsOk(l) && j < |l.aplicaciones|
    ensures var a := l.aplicaciones[j];
            exists i :: 0 <= i < |l.cuotas| && l.cuotas[i].numero == a.cuota
    ensures var cs, a := l.cuotas, l.aplicaciones[j];
            Deshacer(cs, l.aplicaciones[..j + 1], p)
            == if a.pago != p then Deshacer(cs, l.aplicaciones[..j], p)
               else var k := Fila(cs, a.cuota); Deshacer(cs, l.aplicaciones[..j], p)[k := Devolver(cs[k], a.monto)]
  {
    hide Devolver, AplicadoA;
    var cs, a := l.cuotas, l.aplicaciones[j];
    assert AplicacionOk(a, cs, l.pagos);
    SumPrefixAll(cs, l.aplicaciones, j, p);
    if a.pago == p {
      FirstApplication(l, j);
      OnlyItsInstallment(l, j, p);
    }
  }

  /** The new sums differ from the old ones at one installment, where they start from zero. */
  lemma OnlyItsInstallment(l: Ledger, j: nat, p: nat)
    requires RowsOk(l) && j < |l.aplicaciones| && l.aplicaciones[j].pago == p
    requires exists i :: 0 <= i < |l.cuotas| && l.cuotas[i].numero == l.aplicaciones[j].cuota
    ensures var cs, a := l.cuotas, l.aplicaciones[j];
            Deshacer(cs, l.aplicaciones[..j + 1], p)
            == Deshacer(cs, l.aplicaciones[..j], p)[Fila(cs, a.cuota) := Devolver(cs[Fila(cs, a.cuota)], a.monto)]
  {
    hide Devolver, AplicadoA;
    var cs, a := l.cuotas, l.aplicaciones[j];
    FirstApplication(l, j);
    SumPrefixAll(cs, l.aplicaciones, j, p);
  }

  lemma SumPrefixAll(cs: seq<Cuota>, apps: seq<Aplicacion>, j: nat, p: nat)
    requires j < |apps|
    ensures forall k :: 0 <= k < |cs| ==>
              AplicadoA(apps[..j + 1], cs[k].numero, p)
              == AplicadoA(apps[..j], cs[k].numero, p) + DeAmbos(cs[k].numero, p)(apps[j])
  {
    forall k | 0 <= k < |cs|
      ensures AplicadoA(apps[..j + 1], cs[k].numero, p)
              == AplicadoA(apps[..j], cs[k].numero, p) + DeAmbos(cs[k].numero, p)(apps[j])
    {
      SumPrefix(apps, j, DeAmbos(cs[k].numero, p));
    }
  }

  /** The unique (installment, payment) key: nothing of this pair was applied earlier in the table. */
  lemma FirstApplication(l: Ledger, j: nat)
    requires RowsOk(l) && j < |l.aplicaciones|
    ensures AplicadoA(l.aplicaciones[..j], l.aplicaciones[j].cuota, l.aplicaciones[j].pago) == 0
    ensures l.aplicaciones[j].monto > 0
  {
    var a := l.aplicaciones[j];
    assert AplicacionOk(a, l.cuotas, l.pagos);
    forall i | 0 <= i < j ensures DeAmbos(a.cuota, a.pago)(l.aplicaciones[..j][i]) == 0 {
      assert !Choque(l.aplicaciones[i], a);
    }
    SumZero(l.aplicaciones[..j], DeAmbos(a.cuota, a.pago));
  }
}
