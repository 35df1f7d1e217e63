/**
 An accepted return, partial or total, reads the account and its installments under no lock but the
 note's, and sets every column from what it read. This module says, for anything that commits between
 the read and the writes, exactly when the balance and the whole ledger survive.
 */
module ReceivableNoteRaces {
  import opened Sums
  import opened Wrappers
  import opened CashRegister
  import opened Receivable
  import opened ReceivableLaws
  import opened ReceivableRaces
  import R = ReceivableRuns

  /** The row of number n that a note of this total read, and what it writes there. */
  function FilaNota(leido: Ledger, total: int, n: nat): Option<(Cuota, Cuota)> {
    var a, b := Buscar(leido.cuotas, n), Buscar(RebajarTodas(leido.cuotas, total), n);
    if a.Some? && b.Some? && a.value != b.value then Some((a.value, b.value)) else None
  }

  /** The installment writes of a note: original, balance and status, computed from the rows read. */
  function NotaFilas(cs: seq<Cuota>, leido: Ledger, total: int): (r: seq<Cuota>)
    ensures |r| == |cs|
  {
    seq(|cs|, k requires 0 <= k < |cs| =>
      match FilaNota(leido, total, cs[k].numero)
      case Some(f) => cs[k].(original := f.1.original, saldo := f.1.saldo, estado := f.1.estado)
      case None => cs[k])
  }

  /**
   The writes on l of a return that read `leido`: every column is set, none is incremented; a total
   return then cancels whatever installment has a balance.
   */
  function NotaLeida(l: Ledger, leido: Ledger, total: int, devolucionTotal: bool): Ledger
    requires l.cuenta.Some? && leido.cuenta.Some?
  {
    var c := leido.cuenta.value;
    if c.estado == Anulada then l
    else
      var pendiente := Max(c.saldoPendiente - total, 0);
      l.(cuenta := Some(l.cuenta.value.(totalVenta := Max(c.totalVenta - total, 0), saldoPendiente := pendiente,
                                        saldoFavor := c.saldoFavor + Max(total - c.saldoPendiente, 0),
                                        estado := if devolucionTotal then Anulada else EstadoTrasAbono(pendiente))),
         cuotas := FilasTras(l.cuotas, leido, total, devolucionTotal))
  }

  /**
   What a stale return writes on the account: total, balance and credit from what it read, over whatever
   they are now; advance and initial balance stay. One that read an annulled account writes nothing.
   */
  lemma StaleNoteWrites(l: Ledger, leido: Ledger, total: nat, devolucionTotal: bool)
    requires l.cuenta.Some? && leido.cuenta.Some?
    ensures var r, a, c := NotaLeida(l, leido, total, devolucionTotal), l.cuenta.value, leido.cuenta.value;
            && r.(cuenta := l.cuenta, cuotas := l.cuotas) == l
            && if c.estado == Anulada then r == l
               else
                 var d := r.cuenta.value;
                 && d.adelanto == a.adelanto && d.saldoInicial == a.saldoInicial
                 && d.totalVenta == (if c.totalVenta > total then c.totalVenta - total else 0)
                 && d.saldoPendiente == (if c.saldoPendiente > total then c.saldoPendiente - total else 0)
                 && d.saldoFavor == c.saldoFavor + (if c.saldoPendiente > total then 0 else total - c.saldoPendiente)
                 && d.estado == (if devolucionTotal then Anulada else if c.saldoPendiente > total then Parcial else Pagada)
  {
    hide FilasTras;
  }

  function FilasTras(cs: seq<Cuota>, leido: Ledger, total: int, devolucionTotal: bool): (r: seq<Cuota>)
    ensures |r| == |cs|
  {
    var filas := NotaFilas(cs, leido, total);
    if devolucionTotal then seq(|filas|, k requires 0 <= k < |filas| => Cancelar(filas[k])) else filas
  }

  lemma NoteRowOf(leido: Ledger, total: int, k: nat)
    requires RowsOk(leido) && k < |leido.cuotas|
    ensures var a, b := leido.cuotas[k], RebajarTodas(leido.cuotas, total)[k];
            FilaNota(leido, total, a.numero) == if a != b then Some((a, b)) else None
  {
    hide RebajarTodas, CuotaOk, AplicacionOk, PagoOk, SinChoques;
    RebajarKeepsCuotas(leido, total);
    RebajarKeepsCuota(leido, total, k);
    BuscarFinds(leido.cuotas, k);
    BuscarFinds(RebajarTodas(leido.cuotas, total), k);
  }

  lemma FreshReadIsAcreditar(l: Ledger, total: int, devolucionTotal: bool)
    requires RowsOk(l) && l.cuenta.Some?
    ensures NotaLeida(l, l, total, devolucionTotal) == AcreditarNota(l, total, devolucionTotal)
  {
    hide RowsOk, Rebaja, FilaNota;
    forall k | 0 <= k < |l.cuotas| ensures NotaFilas(l.cuotas, l, total)[k] == RebajarTodas(l.cuotas, total)[k] {
      NoteRowOf(l, total, k);
    }
    assert NotaFilas(l.cuotas, l, total) == RebajarTodas(l.cuotas, total);
  }

  /** The balance of an installment the note does not write. */
  function Quieta(leido: Ledger, total: int): Cuota -> int {
    (c: Cuota) => if FilaNota(leido, total, c.numero).None? then c.saldo else 0
  }

  function EscritoEn(leido: Ledger, total: int): Cuota -> int {
    (c: Cuota) => match FilaNota(leido, total, c.numero) case Some(f) => f.1.saldo case None => 0
  }

  lemma NoteWritesAdd(cs: seq<Cuota>, leido: Ledger, total: int)
    requires RowsOk(leido) && NumerosDistintos(cs) && Retiene(cs, leido.cuotas)
    ensures Sum(NotaFilas(cs, leido, total), SaldoDe())
            == Sum(cs, Quieta(leido, total)) + Sum(leido.cuotas, EscritoEn(leido, total))
    ensures Sum(RebajarTodas(leido.cuotas, total), SaldoDe())
            == Sum(leido.cuotas, Quieta(leido, total)) + Sum(leido.cuotas, EscritoEn(leido, total))
  {
    hide CuotaOk, AplicacionOk, PagoOk, SinChoques, RebajarTodas;
    var q, w := Quieta(leido, total), EscritoEn(leido, total);
    var todo := (c: Cuota) => q(c) + w(c);
    SumMatch(NotaFilas(cs, leido, total), cs, SaldoDe(), todo);
    SumSplit(cs, todo, q, w);
    forall x | x in cs && w(x) != 0 ensures Tiene(leido.cuotas, x.numero) { WrittenRowWasRead(leido, total, x.numero); }
    forall y | y in leido.cuotas ensures Tiene(cs, y.numero) { assert Tiene(leido.cuotas, y.numero); }
    SumByNumber(cs, leido.cuotas, w);
    forall k | 0 <= k < |leido.cuotas|
      ensures SaldoDe()(RebajarTodas(leido.cuotas, total)[k]) == todo(leido.cuotas[k])
    {
      NoteRowOf(leido, total, k);
    }
    SumMatch(RebajarTodas(leido.cuotas, total), leido.cuotas, SaldoDe(), todo);
    SumSplit(leido.cuotas, todo, q, w);
  }

  lemma WrittenRowWasRead(leido: Ledger, total: int, n: nat)
    requires FilaNota(leido, total, n).Some?
    ensures Tiene(leido.cuotas, n)
  {
    var i :| 0 <= i < |leido.cuotas| && leido.cuotas[i] == Buscar(leido.cuotas, n).value;
  }

  /** A row a note changes was open, and is left with its original equal to paid plus owed. */
  lemma NoteRowShape(leido: Ledger, total: int, i: nat)
    requires RowsOk(leido) && i < |leido.cuotas| && RebajarTodas(leido.cuotas, total)[i] != leido.cuotas[i]
    ensures var a, b := leido.cuotas[i], RebajarTodas(leido.cuotas, total)[i];
            && b.original == a.pagado + b.saldo && b.pagado == a.pagado >= 0 && 0 <= b.saldo < a.saldo
            && b.estado == if b.saldo == 0 then CuotaPagada else if a.pagado > 0 then CuotaParcial else CuotaPendiente
  {
    hide Despues;
    assert CuotaOk(leido.cuotas[i], leido.aplicaciones);
    SumNonNegativeApps(leido, leido.cuotas[i].numero);
  }

  /** What the balance needs: a total return, that it covers what was read; a partial one, that what it does not write stands. */
  predicate Cuadra(l: Ledger, leido: Ledger, total: int, devolucionTotal: bool)
    requires leido.cuenta.Some?
  {
    if devolucionTotal then total >= leido.cuenta.value.saldoPendiente
    else Sum(l.cuotas, Quieta(leido, total)) == Sum(leido.cuotas, Quieta(leido, total))
  }

  /** After a total return no installment has a balance. */
  lemma TotalLeavesNothing(l: Ledger, leido: Ledger, total: int)
    requires RowsOk(l) && RowsOk(leido)
    ensures Sum(FilasTras(l.cuotas, leido, total, true), SaldoDe()) == 0
  {
    hide RebajarTodas, Sum, FilaNota;
    var rs := FilasTras(l.cuotas, leido, total, true);
    forall k | 0 <= k < |rs| ensures rs[k].saldo == 0 {
      assert CuotaOk(l.cuotas[k], l.aplicaciones);
      WrittenSaldo(leido, total, l.cuotas[k].numero);
    }
    SumZero(rs, SaldoDe());
  }

  lemma WrittenSaldo(leido: Ledger, total: int, n: nat)
    requires RowsOk(leido)
    ensures FilaNota(leido, total, n).Some? ==> FilaNota(leido, total, n).value.1.saldo >= 0
  {
    hide RebajarTodas, CuotaOk, AplicacionOk, PagoOk, SinChoques;
    if FilaNota(leido, total, n).Some? {
      var i :| 0 <= i < |leido.cuotas| && leido.cuotas[i] == FilaNota(leido, total, n).value.0;
      NoteRowOf(leido, total, i);
      NoteRowShape(leido, total, i);
    }
  }

  /**
   Whatever committed between the note's read and its writes, the account owes what its installments
   owe exactly when: partial return, the installments it does not write owe together what they owed
   when read; total return, it covers the balance as read.
   */
  lemma StaleNoteKeepsBalanceIff(l: Ledger, leido: Ledger, total: nat, devolucionTotal: bool)
    requires LedgerOk(leido) && leido.cuenta.Some? && leido.cuenta.value.estado != Anulada
    requires RowsOk(l) && l.cuenta.Some? && Retiene(l.cuotas, leido.cuotas)
    ensures CuentaOk(NotaLeida(l, leido, total, devolucionTotal)) <==> Cuadra(l, leido, total, devolucionTotal)
  {
    hide CuotaOk, AplicacionOk, PagoOk, SinChoques, CashOk, NotaFilas, RebajarTodas, Quieta, EscritoEn, Retiene;
    if devolucionTotal {
      TotalLeavesNothing(l, leido, total);
    } else {
      NoteWritesAdd(l.cuotas, leido, total);
      RebajarTotal(leido, total);
    }
  }

  // ---------------------------------------------------------------- the rows

  /** Installment c is consistent, and no application hangs on it if it dies or revives. */
  ghost predicate FilaSigue(c: Cuota, antes: Cuota, apps: seq<Aplicacion>) {
    CuotaOk(c, apps) && (Viva(c) == Viva(antes) || Sum(apps, DeCuota(antes.numero)) == 0)
  }

  lemma NoApplicationIff(l: Ledger, n: nat)
    requires RowsOk(l)
    ensures Sum(l.aplicaciones, DeCuota(n)) == 0 <==> forall i :: 0 <= i < |l.aplicaciones| ==> l.aplicaciones[i].cuota != n
  {
    forall i | 0 <= i < |l.aplicaciones| ensures l.aplicaciones[i].monto > 0 {
      assert AplicacionOk(l.aplicaciones[i], l.cuotas, l.pagos);
    }
    SumNonNegative(l.aplicaciones, DeCuota(n));
    if i :| 0 <= i < |l.aplicaciones| && l.aplicaciones[i].cuota == n {
      assert DeCuota(n)(l.aplicaciones[i]) > 0;
    } else {
      SumZero(l.aplicaciones, DeCuota(n));
    }
  }

  /** An application follows its installment exactly when the installment stays alive, or dead. */
  lemma ApplicationFollowsIff(l: Ledger, cs: seq<Cuota>, i: nat, j: nat)
    requires RowsOk(l) && |cs| == |l.cuotas| && i < |l.aplicaciones| && j < |cs| && l.cuotas[j].numero == l.aplicaciones[i].cuota
    requires forall k :: 0 <= k < |cs| ==> cs[k].numero == l.cuotas[k].numero
    ensures AplicacionOk(l.aplicaciones[i], cs, l.pagos) <==> Viva(cs[j]) == Viva(l.cuotas[j])
  {
    hide CuotaOk, PagoOk, SinChoques;
    var a := l.aplicaciones[i];
    assert AplicacionOk(a, l.cuotas, l.pagos);
    var k :| 0 <= k < |l.cuotas| && l.cuotas[k].numero == a.cuota && Viva(l.cuotas[k]) == l.pagos[a.pago].activo;
    assert k == j;
    if Existe(cs, a.cuota, l.pagos[a.pago].activo) {
      var m :| 0 <= m < |cs| && cs[m].numero == a.cuota && Viva(cs[m]) == l.pagos[a.pago].activo;
      assert m == j;
    }
  }

  /** New rows under the same keys are consistent exactly when each follows its old one. */
  lemma RowsFollowIff(l: Ledger, cs: seq<Cuota>)
    requires RowsOk(l) && |cs| == |l.cuotas|
    requires forall k :: 0 <= k < |cs| ==> cs[k].numero == l.cuotas[k].numero && cs[k].vence == l.cuotas[k].vence
    ensures RowsOk(l.(cuotas := cs)) <==> forall k :: 0 <= k < |cs| ==> FilaSigue(cs[k], l.cuotas[k], l.aplicaciones)
  {
    hide CuotaOk, PagoOk, SinChoques, AplicacionOk, Sum;
    var r := l.(cuotas := cs);
    SameKeysKeepOrder(l.cuotas, cs);
    if forall k :: 0 <= k < |cs| ==> FilaSigue(cs[k], l.cuotas[k], l.aplicaciones) {
      forall i | 0 <= i < |l.aplicaciones| ensures AplicacionOk(l.aplicaciones[i], cs, l.pagos) {
        var j := RowOf(l, i);
        NoApplicationIff(l, l.cuotas[j].numero);
        assert FilaSigue(cs[j], l.cuotas[j], l.aplicaciones);
        ApplicationFollowsIff(l, cs, i, j);
      }
    }
    if RowsOk(r) {
      forall k | 0 <= k < |cs| ensures FilaSigue(cs[k], l.cuotas[k], l.aplicaciones) {
        assert CuotaOk(r.cuotas[k], r.aplicaciones);
        NoApplicationIff(l, l.cuotas[k].numero);
        if i :| 0 <= i < |l.aplicaciones| && l.aplicaciones[i].cuota == l.cuotas[k].numero {
          assert AplicacionOk(r.aplicaciones[i], r.cuotas, r.pagos);
          ApplicationFollowsIff(l, cs, i, k);
        }
      }
    }
  }

  lemma RowOf(l: Ledger, i: nat) returns (j: nat)
    requires RowsOk(l) && i < |l.aplicaciones|
    ensures j < |l.cuotas| && l.cuotas[j].numero == l.aplicaciones[i].cuota
  {
    assert AplicacionOk(l.aplicaciones[i], l.cuotas, l.pagos);
    j :| 0 <= j < |l.cuotas| && l.cuotas[j].numero == l.aplicaciones[i].cuota;
  }

  /**
   What the note needs of installment c as it is now. If it writes it: what is paid is what was read
   and what is applied, and nothing if it is cancelled. If a total return does not write it: nothing
   owed, or nothing paid.
   */
  ghost predicate FilaEncaja(c: Cuota, apps: seq<Aplicacion>, leido: Ledger, total: int, devolucionTotal: bool) {
    match FilaNota(leido, total, c.numero)
    case Some(f) => c.pagado == f.0.pagado == Sum(apps, DeCuota(c.numero)) && (Viva(c) || c.pagado == 0)
    case None => devolucionTotal ==> c.saldo == 0 || c.pagado == 0
  }

  lemma StaleNoteRowIff(l: Ledger, leido: Ledger, total: int, devolucionTotal: bool, k: nat)
    requires RowsOk(l) && RowsOk(leido) && k < |l.cuotas|
    requires devolucionTotal ==> leido.cuenta.Some? && CuentaOk(leido) && total >= leido.cuenta.value.saldoPendiente && total >= 0
    ensures FilaSigue(FilasTras(l.cuotas, leido, total, devolucionTotal)[k], l.cuotas[k], l.aplicaciones) <==>
              FilaEncaja(l.cuotas[k], l.aplicaciones, leido, total, devolucionTotal)
  {
    hide RebajarTodas, AplicacionOk, PagoOk, SinChoques, Sum, Buscar;
    var c := l.cuotas[k];
    var f := FilaNota(leido, total, c.numero);
    assert CuotaOk(c, l.aplicaciones);
    if f.Some? {
      var i :| 0 <= i < |leido.cuotas| && leido.cuotas[i] == f.value.0;
      NoteRowOf(leido, total, i);
      NoteRowShape(leido, total, i);
      if devolucionTotal { CoveringNoteSettles(leido, total, i); }
    }
  }

  /**
   A stale return leaves a consistent ledger exactly when the account had been annulled, so that it
   writes nothing, or the balance condition holds and every installment fits what the note assumed.
   */
  lemma StaleNoteKeepsLedgerIff(l: Ledger, leido: Ledger, total: nat, devolucionTotal: bool)
    requires LedgerOk(leido) && leido.cuenta.Some?
    requires LedgerOk(l) && l.cuenta.Some? && Retiene(l.cuotas, leido.cuotas)
    ensures LedgerOk(NotaLeida(l, leido, total, devolucionTotal)) <==>
              || leido.cuenta.value.estado == Anulada
              || (Cuadra(l, leido, total, devolucionTotal)
                  && forall k :: 0 <= k < |l.cuotas| ==>
                       FilaEncaja(l.cuotas[k], l.aplicaciones, leido, total, devolucionTotal))
  {
    hide CuentaOk, CajaOk, CuotaOk, AplicacionOk, PagoOk, SinChoques, Quieta, Retiene, Sum, FilaNota, FilaEncaja, FilaSigue;
    if leido.cuenta.value.estado != Anulada {
      StaleNoteKeepsBalanceIff(l, leido, total, devolucionTotal);
      if Cuadra(l, leido, total, devolucionTotal) {
        var r := NotaLeida(l, leido, total, devolucionTotal);
        RowsFollowIff(l, r.cuotas);
        forall k | 0 <= k < |l.cuotas|
          ensures FilaSigue(r.cuotas[k], l.cuotas[k], l.aplicaciones) <==>
                    FilaEncaja(l.cuotas[k], l.aplicaciones, leido, total, devolucionTotal)
        {
          StaleNoteRowIff(l, leido, total, devolucionTotal, k);
        }
        var filas := l.(cuotas := r.cuotas);
        if RowsOk(filas) { SameRows(filas, r); }
        if RowsOk(r) { SameRows(r, filas); }
      }
    }
  }

  /** Both conditions over any run between the read and the writes. */
  lemma StaleNoteOverRun(leido: Ledger, es: seq<R.Evento>, total: nat, devolucionTotal: bool)
    requires LedgerOk(leido) && leido.cuenta.Some? && leido.cuenta.value.estado != Anulada && R.Cubiertas(leido, es)
    ensures var l := R.Correr(leido, es);
            && l.cuenta.Some?
            && (CuentaOk(NotaLeida(l, leido, total, devolucionTotal)) <==> Cuadra(l, leido, total, devolucionTotal))
            && (LedgerOk(NotaLeida(l, leido, total, devolucionTotal)) <==>
                  && Cuadra(l, leido, total, devolucionTotal)
                  && forall k :: 0 <= k < |l.cuotas| ==>
                       FilaEncaja(l.cuotas[k], l.aplicaciones, leido, total, devolucionTotal))
  {
    hide RowsOk, CuentaOk, CashOk, Retiene, FilaEncaja, Cuadra, NotaLeida;
    var l := R.Correr(leido, es);
    R.RunKeepsLedger(leido, es);
    RunFollows(leido, es, 0);
    StaleNoteKeepsBalanceIff(l, leido, total, devolucionTotal);
    StaleNoteKeepsLedgerIff(l, leido, total, devolucionTotal);
  }

  lemma PaidRow(l: Ledger, monto: int, k: nat)
    requires k < |l.cuotas| && monto >= 0
    ensures var c, x := l.cuotas[k], Parte(l.cuotas, monto, k);
            && x >= 0 && (x > 0 ==> x <= c.saldo) && Repartir(l.cuotas, monto)[k].numero == c.numero
            && Repartir(l.cuotas, monto)[k].pagado == c.pagado + x && Repartir(l.cuotas, monto)[k].saldo == c.saldo - x
  {
    ParteStep(l.cuotas, monto, k);
  }

  lemma PaymentReachesARow(l: Ledger, d: PagoDto)
    requires LedgerOk(l) && Registrar(l, d).Done? && Registrar(l, d).state != l
    ensures d.monto > 0 && Registrar(l, d).state.cuotas == Repartir(l.cuotas, d.monto)
    ensures Registrar(l, d).state.cuenta.Some?
    ensures exists k :: 0 <= k < |l.cuotas| && Parte(l.cuotas, d.monto, k) > 0
  {
    hide RowsOk, CuentaOk, CashOk, Parte, Aplicar, ResolverCaja, Abonar;
    if forall k :: 0 <= k < |l.cuotas| ==> Parte(l.cuotas, d.monto, k) <= 0 {
      NoShares(l.cuotas, d.monto, |l.cuotas|);
    }
  }

  lemma {:induction false} NoShares(cs: seq<Cuota>, monto: int, k: nat)
    requires k <= |cs| && monto > 0 && forall i :: 0 <= i < |cs| ==> Parte(cs, monto, i) <= 0
    ensures Antes(cs, k) <= 0
  {
    if k == 0 {
    } else {
      NoShares(cs, monto, k - 1);
      ParteStep(cs, monto, k - 1);
      AntesNonNegative(cs, k - 1, k - 1);
    }
  }

  /** A payment that commits under an accepted return is always lost: from the balance, or from a row. */
  lemma PaymentUnderNoteIsLost(l: Ledger, d: PagoDto, total: nat, devolucionTotal: bool)
    requires LedgerOk(l) && Registrar(l, d).Done? && Registrar(l, d).state != l
    ensures !LedgerOk(NotaLeida(Registrar(l, d).state, l, total, devolucionTotal))
  {
    hide RowsOk, CuentaOk, CashOk, Parte, Antes, Aplicar, ResolverCaja, Tiene, FilaNota, NotaLeida, Abonar, RebajarTodas;
    var r := Registrar(l, d).state;
    RegistrarKeepsLedger(l, d);
    PaymentFollows(l, d, 0);
    PaymentReachesARow(l, d);
    StaleNoteKeepsLedgerIff(r, l, total, devolucionTotal);
    var k :| 0 <= k < |l.cuotas| && Parte(l.cuotas, d.monto, k) > 0;
    PaidRow(l, d.monto, k);
    NoteRowOf(l, total, k);
    if FilaNota(l, total, l.cuotas[k].numero).Some? {
      assert !FilaEncaja(r.cuotas[k], r.aplicaciones, l, total, devolucionTotal);
    } else if devolucionTotal {
      if total >= l.cuenta.value.saldoPendiente { CoveringNoteSettles(l, total, k); }
    } else {
      forall j | 0 <= j < |l.cuotas| ensures Quieta(l, total)(r.cuotas[j]) <= Quieta(l, total)(l.cuotas[j]) {
        PaidRow(l, d.monto, j);
      }
      SumEqualIff(r.cuotas, l.cuotas, Quieta(l, total));
    }
  }
}
