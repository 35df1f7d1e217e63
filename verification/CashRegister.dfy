/**
 Cash sessions and their movements: open, createMovement and close, the append that the
 other services use, and the per-method totals of a response.
 A session is identified by its position in `sesiones`, so rows are only ever appended.
 */
module CashRegister {
  import opened Sums
  import opened Wrappers

  datatype TipoMovimiento =
    Apertura | Venta | Cobranza | Ingreso | Retiro | AnulacionVenta | AnulacionCobranza

  datatype Movimiento = Movimiento(
    sesion: nat, pago: Option<nat>, metodo: Option<nat>, tipo: TipoMovimiento, monto: int)

  datatype Sesion = Sesion(
    usuario: nat, sucursal: nat, abierta: bool, inicial: int,
    esperado: Option<int>, declarado: Option<int>, diferencia: Option<int>)

  datatype Caja = Caja(sesiones: seq<Sesion>, movimientos: seq<Movimiento>)

  /** One declared or opening balance: a payment method and its amount. */
  datatype Saldo = Saldo(metodo: nat, monto: int)

  /** What the branch lookup before opening finds. */
  datatype SucursalCaja = Inexistente | NoEsTienda | CajaDeshabilitada | CajaHabilitada

  function Monto(): Movimiento -> int { (m: Movimiento) => m.monto }

  function EnSesion(s: nat): Movimiento -> int {
    (m: Movimiento) => if m.sesion == s then m.monto else 0
  }

  function AperturaEn(s: nat): Movimiento -> int {
    (m: Movimiento) => if m.sesion == s && m.tipo == Apertura then m.monto else 0
  }

  function DeMetodo(k: Option<nat>): Movimiento -> int {
    (m: Movimiento) => if m.metodo == k then m.monto else 0
  }

  function MontoSaldo(): Saldo -> int { (x: Saldo) => x.monto }

  predicate Abierta(c: Caja, s: nat) {
    s < |c.sesiones| && c.sesiones[s].abierta
  }

  /** The open session of a user in a branch, as `findFirst` answers it. */
  function BuscarAbierta(c: Caja, usuario: nat, sucursal: nat, desde: nat): (r: Option<nat>)
    requires desde <= |c.sesiones|
    ensures r.Some? ==> Abierta(c, r.value) && desde <= r.value
                        && c.sesiones[r.value].usuario == usuario && c.sesiones[r.value].sucursal == sucursal
    ensures r.None? ==> forall s :: desde <= s < |c.sesiones| && c.sesiones[s].abierta ==>
                          c.sesiones[s].usuario != usuario || c.sesiones[s].sucursal != sucursal
    decreases |c.sesiones| - desde
  {
    if desde == |c.sesiones| then None
    else
      var x := c.sesiones[desde];
      if x.abierta && x.usuario == usuario && x.sucursal == sucursal then Some(desde)
      else BuscarAbierta(c, usuario, sucursal, desde + 1)
  }

  predicate NoNegativos(saldos: seq<Saldo>) {
    forall i :: 0 <= i < |saldos| ==> saldos[i].monto >= 0
  }

  /** The opening movements: one per declared balance, zero balances dropped. */
  function Iniciales(sesion: nat, saldos: seq<Saldo>): seq<Movimiento> {
    if |saldos| == 0 then []
    else
      var x := saldos[|saldos| - 1];
      Iniciales(sesion, saldos[..|saldos| - 1]) +
      (if x.monto == 0 then [] else [Movimiento(sesion, None, Some(x.metodo), Apertura, x.monto)])
  }

  function Abrir(c: Caja, usuario: nat, sucursal: nat, permiso: SucursalCaja, metodosValidos: bool, saldos: seq<Saldo>)
    : Outcome<Caja>
  {
    if !NoNegativos(saldos) then Refused(BadRequest)
    else if permiso == Inexistente then Refused(NotFound)
    else if permiso != CajaHabilitada then Refused(BadRequest)
    else if !metodosValidos then Refused(NotFound)
    else if BuscarAbierta(c, usuario, sucursal, 0).Some? then Refused(Conflict)
    else
      var s := |c.sesiones|;
      Done(Caja(
             c.sesiones + [Sesion(usuario, sucursal, true, Sum(saldos, MontoSaldo()), None, None, None)],
             c.movimientos + Iniciales(s, saldos)))
  }

  function Mover(c: Caja, usuario: nat, sucursal: nat, retiro: bool, monto: int, metodo: nat, metodoValido: bool)
    : Outcome<Caja>
  {
    if monto <= 0 then Refused(BadRequest)
    else if !metodoValido then Refused(NotFound)
    else
      match BuscarAbierta(c, usuario, sucursal, 0)
      case None => Refused(BadRequest)
      case Some(s) =>
        var m := Movimiento(s, None, Some(metodo), if retiro then Retiro else Ingreso, if retiro then -monto else monto);
        Done(c.(movimientos := c.movimientos + [m]))
  }

  function Cerrar(c: Caja, usuario: nat, sucursal: nat, metodosValidos: bool, declarados: seq<Saldo>): Outcome<Caja> {
    if !NoNegativos(declarados) then Refused(BadRequest)
    else if !metodosValidos then Refused(NotFound)
    else
      match BuscarAbierta(c, usuario, sucursal, 0)
      case None => Refused(BadRequest)
      case Some(s) =>
        var e, d := Sum(c.movimientos, EnSesion(s)), Sum(declarados, MontoSaldo());
        Done(c.(sesiones := c.sesiones[s :=
                  c.sesiones[s].(abierta := false, esperado := Some(e), declarado := Some(d), diferencia := Some(d - e))]))
  }

  /** Rows that another service writes into sessions it has read as open. */
  function Agregar(c: Caja, nuevos: seq<Movimiento>): Caja {
    c.(movimientos := c.movimientos + nuevos)
  }

  // ---------------------------------------------------------------- the invariant

  ghost predicate SesionOk(c: Caja, s: nat)
    requires s < |c.sesiones|
  {
    var x := c.sesiones[s];
    && x.inicial == Sum(c.movimientos, AperturaEn(s))
    && (x.abierta ==> x.esperado == x.declarado == x.diferencia == None)
    && (!x.abierta ==>
          && x.esperado == Some(Sum(c.movimientos, EnSesion(s)))
          && x.declarado.Some?
          && x.diferencia == Some(x.declarado.value - x.esperado.value))
  }

  ghost predicate CajaOk(c: Caja) {
    && (forall i :: 0 <= i < |c.movimientos| ==> c.movimientos[i].sesion < |c.sesiones|)
    && (forall s :: 0 <= s < |c.sesiones| ==> SesionOk(c, s))
    && (forall s, t :: 0 <= s < t < |c.sesiones| && c.sesiones[s].abierta && c.sesiones[t].abierta ==>
          c.sesiones[s].usuario != c.sesiones[t].usuario || c.sesiones[s].sucursal != c.sesiones[t].sucursal)
  }

  /** Rows of other services never touch a closed session nor count as opening balances. */
  ghost predicate Agregable(c: Caja, nuevos: seq<Movimiento>) {
    forall i :: 0 <= i < |nuevos| ==> Abierta(c, nuevos[i].sesion) && nuevos[i].tipo != Apertura
  }

  /** In each closed session the new rows add up to nothing. */
  ghost predicate NadaEnCerradas(c: Caja, nuevos: seq<Movimiento>) {
    forall s :: 0 <= s < |c.sesiones| && !c.sesiones[s].abierta ==> Sum(nuevos, EnSesion(s)) == 0
  }

  lemma {:induction false} AppendKeepsSesionIff(c: Caja, nuevos: seq<Movimiento>, s: nat)
    requires s < |c.sesiones| && SesionOk(c, s)
    requires forall i :: 0 <= i < |nuevos| ==> nuevos[i].tipo != Apertura
    ensures SesionOk(Agregar(c, nuevos), s) <==> c.sesiones[s].abierta || Sum(nuevos, EnSesion(s)) == 0
  {
    SumConcat(c.movimientos, nuevos, AperturaEn(s));
    SumConcat(c.movimientos, nuevos, EnSesion(s));
    SumZero(nuevos, AperturaEn(s));
  }

  /**
   Rows written into sessions that were read as open some time before: the cash laws survive exactly
   when those that meet a closed session add up to nothing there.
   */
  lemma {:induction false} AppendKeepsCajaIff(c: Caja, nuevos: seq<Movimiento>)
    requires CajaOk(c)
    requires forall i :: 0 <= i < |nuevos| ==> nuevos[i].sesion < |c.sesiones| && nuevos[i].tipo != Apertura
    ensures CajaOk(Agregar(c, nuevos)) <==> NadaEnCerradas(c, nuevos)
  {
    hide SesionOk, Sum;
    var r := Agregar(c, nuevos);
    forall s | 0 <= s < |c.sesiones|
      ensures SesionOk(r, s) <==> c.sesiones[s].abierta || Sum(nuevos, EnSesion(s)) == 0
    {
      assert SesionOk(c, s);
      AppendKeepsSesionIff(c, nuevos, s);
    }
  }

  lemma {:induction false} AgregarKeepsCaja(c: Caja, nuevos: seq<Movimiento>)
    requires CajaOk(c) && Agregable(c, nuevos)
    ensures CajaOk(Agregar(c, nuevos))
  {
    hide CajaOk;
    forall s | 0 <= s < |c.sesiones| && !c.sesiones[s].abierta ensures Sum(nuevos, EnSesion(s)) == 0 {
      SumZero(nuevos, EnSesion(s));
    }
    AppendKeepsCajaIff(c, nuevos);
  }

  lemma {:induction false} InicialesSum(sesion: nat, saldos: seq<Saldo>)
    ensures Sum(Iniciales(sesion, saldos), AperturaEn(sesion)) == Sum(saldos, MontoSaldo())
    ensures forall i :: 0 <= i < |Iniciales(sesion, saldos)| ==>
              Iniciales(sesion, saldos)[i].sesion == sesion && Iniciales(sesion, saldos)[i].monto != 0
  {
    if |saldos| == 0 {
    } else {
      var u, x := saldos[..|saldos| - 1], saldos[|saldos| - 1];
      InicialesSum(sesion, u);
      if x.monto != 0 {
        SumSnoc(Iniciales(sesion, u), Movimiento(sesion, None, Some(x.metodo), Apertura, x.monto), AperturaEn(sesion));
      } else {
        assert Iniciales(sesion, saldos) == Iniciales(sesion, u);
      }
    }
  }

  lemma AbrirKeepsCaja(c: Caja, usuario: nat, sucursal: nat, permiso: SucursalCaja, metodosValidos: bool, saldos: seq<Saldo>)
    requires CajaOk(c)
    ensures CajaOk(Abrir(c, usuario, sucursal, permiso, metodosValidos, saldos).After(c))
  {
    var r := Abrir(c, usuario, sucursal, permiso, metodosValidos, saldos);
    if r.Done? {
      var c', n := r.state, |c.sesiones|;
      var ini := Iniciales(n, saldos);
      InicialesSum(n, saldos);
      forall s | 0 <= s < |c'.sesiones| ensures SesionOk(c', s) {
        SumConcat(c.movimientos, ini, AperturaEn(s));
        SumConcat(c.movimientos, ini, EnSesion(s));
        if s < n {
          assert SesionOk(c, s);
          SumZero(ini, AperturaEn(s));
          SumZero(ini, EnSesion(s));
        } else {
          SumZero(c.movimientos, AperturaEn(n));
        }
      }
    }
  }

  lemma MoverKeepsCaja(c: Caja, usuario: nat, sucursal: nat, retiro: bool, monto: int, metodo: nat, metodoValido: bool)
    requires CajaOk(c)
    ensures CajaOk(Mover(c, usuario, sucursal, retiro, monto, metodo, metodoValido).After(c))
  {
    var r := Mover(c, usuario, sucursal, retiro, monto, metodo, metodoValido);
    if r.Done? {
      var nuevos := r.state.movimientos[|c.movimientos|..];
      assert r.state == Agregar(c, nuevos);
      AgregarKeepsCaja(c, nuevos);
    }
  }

  lemma CerrarKeepsCaja(c: Caja, usuario: nat, sucursal: nat, metodosValidos: bool, declarados: seq<Saldo>)
    requires CajaOk(c)
    ensures CajaOk(Cerrar(c, usuario, sucursal, metodosValidos, declarados).After(c))
  {
    var r := Cerrar(c, usuario, sucursal, metodosValidos, declarados);
    if r.Done? {
      forall s | 0 <= s < |c.sesiones| ensures SesionOk(r.state, s) {
        assert SesionOk(c, s);
      }
    }
  }

  // ---------------------------------------------------------------- what each request does to the drawers

  /** Session k is an open one of that user in that branch. */
  predicate EsDe(c: Caja, usuario: nat, sucursal: nat, k: nat) {
    Abierta(c, k) && c.sesiones[k].usuario == usuario && c.sesiones[k].sucursal == sucursal
  }

  predicate TieneAbierta(c: Caja, usuario: nat, sucursal: nat) {
    exists k :: 0 <= k < |c.sesiones| && EsDe(c, usuario, sucursal, k)
  }

  function SaldoDeMetodo(m: nat): Saldo -> int { (x: Saldo) => if x.metodo == m then x.monto else 0 }

  lemma {:induction false} InicialesPerMethod(s: nat, saldos: seq<Saldo>, m: nat)
    ensures Sum(Iniciales(s, saldos), DeMetodo(Some(m))) == Sum(saldos, SaldoDeMetodo(m))
  {
    if |saldos| == 0 {
    } else {
      var u, x := saldos[..|saldos| - 1], saldos[|saldos| - 1];
      InicialesPerMethod(s, u, m);
      if x.monto != 0 {
        SumSnoc(Iniciales(s, u), Movimiento(s, None, Some(x.metodo), Apertura, x.monto), DeMetodo(Some(m)));
      } else {
        assert Iniciales(s, saldos) == Iniciales(s, u);
      }
    }
  }

  /**
   An opening is accepted exactly for non-negative balances of known methods, in a branch that may use
   cash and where the user has no open session. It adds one open session of that user and branch,
   whose opening rows hold each method's declared balance, and touches no other.
   */
  lemma OpeningIff(c: Caja, usuario: nat, sucursal: nat, permiso: SucursalCaja, metodosValidos: bool, saldos: seq<Saldo>)
    ensures var o := Abrir(c, usuario, sucursal, permiso, metodosValidos, saldos);
            var positivos := forall x :: x in saldos ==> x.monto >= 0;
            && (o.Done? <==> positivos && permiso == CajaHabilitada && metodosValidos
                             && !TieneAbierta(c, usuario, sucursal))
            && (o.Refused? ==>
                  && (o.error == NotFound <==> positivos && (permiso == Inexistente || (permiso == CajaHabilitada && !metodosValidos)))
                  && (o.error == Conflict <==> positivos && permiso == CajaHabilitada && metodosValidos)
                  && (o.error == BadRequest <==> !positivos || permiso == NoEsTienda || permiso == CajaDeshabilitada))
            && (o.Done? ==>
                  var r, n := o.state, |c.sesiones|;
                  && |r.sesiones| == n + 1 && r.sesiones[..n] == c.sesiones && EsDe(r, usuario, sucursal, n)
                  && r.sesiones[n].inicial == Sum(saldos, MontoSaldo())
                  && c.movimientos <= r.movimientos
                  && (forall i :: |c.movimientos| <= i < |r.movimientos| ==>
                        r.movimientos[i].sesion == n && r.movimientos[i].tipo == Apertura && r.movimientos[i].pago == None)
                  && forall m: nat :: Sum(r.movimientos[|c.movimientos|..], DeMetodo(Some(m))) == Sum(saldos, SaldoDeMetodo(m)))
  {
    var o := Abrir(c, usuario, sucursal, permiso, metodosValidos, saldos);
    FindsOpenIff(c, usuario, sucursal);
    if o.Done? {
      var ini := Iniciales(|c.sesiones|, saldos);
      InicialesRows(|c.sesiones|, saldos);
      assert o.state.movimientos[|c.movimientos|..] == ini;
      forall m: nat ensures Sum(ini, DeMetodo(Some(m))) == Sum(saldos, SaldoDeMetodo(m)) {
        InicialesPerMethod(|c.sesiones|, saldos, m);
      }
    }
  }

  lemma {:induction false} InicialesRows(s: nat, saldos: seq<Saldo>)
    ensures forall i :: 0 <= i < |Iniciales(s, saldos)| ==>
              var m := Iniciales(s, saldos)[i]; m.sesion == s && m.tipo == Apertura && m.pago == None
  {
    if |saldos| == 0 {
    } else {
      InicialesRows(s, saldos[..|saldos| - 1]);
    }
  }

  lemma FindsOpenIff(c: Caja, usuario: nat, sucursal: nat)
    ensures BuscarAbierta(c, usuario, sucursal, 0).Some? <==> TieneAbierta(c, usuario, sucursal)
    ensures BuscarAbierta(c, usuario, sucursal, 0).Some? ==>
              EsDe(c, usuario, sucursal, BuscarAbierta(c, usuario, sucursal, 0).value)
  {
    var r := BuscarAbierta(c, usuario, sucursal, 0);
    if r.Some? {
      assert EsDe(c, usuario, sucursal, r.value);
    } else {
      assert forall k :: 0 <= k < |c.sesiones| ==> !EsDe(c, usuario, sucursal, k);
    }
  }

  /** What a request moves in session k: a deposit in, a withdrawal out, if it is the user's open session there. */
  function Mueve(c: Caja, usuario: nat, sucursal: nat, retiro: bool, monto: int, metodoValido: bool, k: nat): int {
    if monto > 0 && metodoValido && EsDe(c, usuario, sucursal, k) then (if retiro then -monto else monto) else 0
  }

  /**
   A deposit raises the sum of the user's open session in that branch by its amount and a withdrawal
   lowers it; every other session's sum, and every opening sum, stays. Without an open session, for an
   amount that is not above zero or for an unknown method the request is refused.
   */
  lemma MovementMovesDrawer(c: Caja, usuario: nat, sucursal: nat, retiro: bool, monto: int, metodo: nat, metodoValido: bool)
    requires CajaOk(c)
    ensures var o := Mover(c, usuario, sucursal, retiro, monto, metodo, metodoValido);
            var r := o.After(c);
            && (o.Done? <==> monto > 0 && metodoValido && TieneAbierta(c, usuario, sucursal))
            && (o.Refused? ==> o.error == if monto > 0 && !metodoValido then NotFound else BadRequest)
            && r.sesiones == c.sesiones
            && (forall k: nat :: Sum(r.movimientos, EnSesion(k))
                                 == Sum(c.movimientos, EnSesion(k)) + Mueve(c, usuario, sucursal, retiro, monto, metodoValido, k))
            && (forall k: nat :: Sum(r.movimientos, AperturaEn(k)) == Sum(c.movimientos, AperturaEn(k)))
            && (o.Done? ==>
                  && |r.movimientos| == |c.movimientos| + 1 && c.movimientos <= r.movimientos
                  && var m := r.movimientos[|c.movimientos|];
                     m.metodo == Some(metodo) && m.pago == None && m.tipo == (if retiro then Retiro else Ingreso))
  {
    hide Sum;
    FindsOpenIff(c, usuario, sucursal);
    var o := Mover(c, usuario, sucursal, retiro, monto, metodo, metodoValido);
    if o.Done? {
      var m := o.state.movimientos[|c.movimientos|];
      forall k: nat
        ensures Sum(o.state.movimientos, EnSesion(k))
                == Sum(c.movimientos, EnSesion(k)) + Mueve(c, usuario, sucursal, retiro, monto, metodoValido, k)
        ensures Sum(o.state.movimientos, AperturaEn(k)) == Sum(c.movimientos, AperturaEn(k))
      {
        SumSnoc(c.movimientos, m, EnSesion(k));
        SumSnoc(c.movimientos, m, AperturaEn(k));
        if EsDe(c, usuario, sucursal, k) { OnlyOneOpen(c, usuario, sucursal, m.sesion, k); }
      }
    }
  }

  lemma OnlyOneOpen(c: Caja, usuario: nat, sucursal: nat, j: nat, k: nat)
    requires CajaOk(c) && EsDe(c, usuario, sucursal, j) && EsDe(c, usuario, sucursal, k)
    ensures j == k
  {
  }

  /**
   A close is accepted exactly when the user has an open session there. It closes that one: expected is
   the sum of its movements, declared the sum of the declared balances, difference one less the other.
   */
  lemma CloseIff(c: Caja, usuario: nat, sucursal: nat, metodosValidos: bool, declarados: seq<Saldo>)
    requires CajaOk(c)
    ensures var o := Cerrar(c, usuario, sucursal, metodosValidos, declarados);
            var positivos := forall x :: x in declarados ==> x.monto >= 0;
            && (o.Done? <==> positivos && metodosValidos && TieneAbierta(c, usuario, sucursal))
            && (o.Refused? ==> o.error == if positivos && !metodosValidos then NotFound else BadRequest)
            && (o.Done? ==>
                  var r := o.state;
                  && r.movimientos == c.movimientos && |r.sesiones| == |c.sesiones|
                  && forall k :: 0 <= k < |c.sesiones| ==>
                       if !EsDe(c, usuario, sucursal, k) then r.sesiones[k] == c.sesiones[k]
                       else
                         var e, d := Sum(c.movimientos, EnSesion(k)), Sum(declarados, MontoSaldo());
                         r.sesiones[k] == Sesion(usuario, sucursal, false, c.sesiones[k].inicial, Some(e), Some(d), Some(d - e)))
  {
    FindsOpenIff(c, usuario, sucursal);
    var o := Cerrar(c, usuario, sucursal, metodosValidos, declarados);
    if o.Done? {
      var j := BuscarAbierta(c, usuario, sucursal, 0).value;
      forall k | 0 <= k < |c.sesiones| && EsDe(c, usuario, sucursal, k) ensures k == j {
        OnlyOneOpen(c, usuario, sucursal, j, k);
      }
    }
  }

  // ---------------------------------------------------------------- a close on a stale sum

  /** The write on c of a close that found session s open and added up the movements of `leida`. */
  function CerrarLeida(c: Caja, leida: Caja, s: nat, declarados: seq<Saldo>): Caja
    requires s < |c.sesiones|
  {
    var e, d := Sum(leida.movimientos, EnSesion(s)), Sum(declarados, MontoSaldo());
    c.(sesiones := c.sesiones[s :=
         c.sesiones[s].(abierta := false, esperado := Some(e), declarado := Some(d), diferencia := Some(d - e))])
  }

  lemma FreshSumIsCerrar(c: Caja, usuario: nat, sucursal: nat, declarados: seq<Saldo>)
    requires Cerrar(c, usuario, sucursal, true, declarados).Done?
    ensures CerrarLeida(c, c, BuscarAbierta(c, usuario, sucursal, 0).value, declarados)
            == Cerrar(c, usuario, sucursal, true, declarados).state
  {
  }

  /** The cash laws survive a stale close exactly when the session's sum is still the one it read. */
  lemma StaleCloseKeepsCajaIff(c: Caja, leida: Caja, s: nat, declarados: seq<Saldo>)
    requires CajaOk(c) && s < |c.sesiones|
    ensures CajaOk(CerrarLeida(c, leida, s, declarados)) <==>
              Sum(c.movimientos, EnSesion(s)) == Sum(leida.movimientos, EnSesion(s))
  {
    hide Sum;
    var r := CerrarLeida(c, leida, s, declarados);
    assert SesionOk(c, s);
    forall t | 0 <= t < |c.sesiones| && t != s ensures SesionOk(r, t) { assert SesionOk(c, t); }
    assert CajaOk(r) ==> SesionOk(r, s);
  }

  // ---------------------------------------------------------------- per-method totals

  datatype Total = Total(metodo: Option<nat>, monto: int)

  function MontoTotal(): Total -> int { (t: Total) => t.monto }

  /** What the totals of a response must be: one entry per method, holding that method's sum. */
  ghost predicate TotalesDe(totales: seq<Total>, movs: seq<Movimiento>) {
    && (forall i, j :: 0 <= i < j < |totales| ==> totales[i].metodo != totales[j].metodo)
    && (forall i :: 0 <= i < |totales| ==> totales[i].monto == Sum(movs, DeMetodo(totales[i].metodo)))
    && (forall m :: 0 <= m < |movs| ==> exists i :: 0 <= i < |totales| && totales[i].metodo == movs[m].metodo)
    && Sum(totales, MontoTotal()) == Sum(movs, Monto())
  }

  /** The entry at `k`, or a new last entry, takes the movement `x`. */
  function Acumular(totales: seq<Total>, k: nat, x: Movimiento): seq<Total>
    requires k <= |totales|
  {
    if k < |totales| then totales[k := Total(x.metodo, totales[k].monto + x.monto)]
    else totales + [Total(x.metodo, x.monto)]
  }

  lemma AcumularKeepsTotales(totales: seq<Total>, k: nat, x: Movimiento, movs: seq<Movimiento>)
    requires TotalesDe(totales, movs)
    requires k <= |totales| && (forall i :: 0 <= i < k ==> totales[i].metodo != x.metodo)
    requires k < |totales| ==> totales[k].metodo == x.metodo
    ensures TotalesDe(Acumular(totales, k, x), movs + [x])
  {
    var ts, all := Acumular(totales, k, x), movs + [x];
    SumSnoc(movs, x, Monto());
    if k < |totales| {
      SumReplace(totales, k, ts[k], MontoTotal());
    } else {
      SumSnoc(totales, ts[k], MontoTotal());
      forall m | 0 <= m < |movs| ensures DeMetodo(x.metodo)(movs[m]) == 0 {
        var j :| 0 <= j < |totales| && totales[j].metodo == movs[m].metodo;
      }
      SumZero(movs, DeMetodo(x.metodo));
    }
    forall i | 0 <= i < |ts| ensures ts[i].monto == Sum(all, DeMetodo(ts[i].metodo)) {
      SumSnoc(movs, x, DeMetodo(ts[i].metodo));
    }
    forall m | 0 <= m < |all| ensures exists i :: 0 <= i < |ts| && ts[i].metodo == all[m].metodo {
      if m < |movs| {
        var j :| 0 <= j < |totales| && totales[j].metodo == movs[m].metodo;
        assert ts[j].metodo == all[m].metodo;
      } else {
        assert ts[k].metodo == all[m].metodo;
      }
    }
  }

  /** buildTotalsByPaymentMethod: the insertion-ordered Map is a sequence of entries. */
  method BuildTotalsByPaymentMethod(movs: seq<Movimiento>) returns (totales: seq<Total>)
    ensures TotalesDe(totales, movs)
  {
    totales := [];
    for n := 0 to |movs|
      invariant TotalesDe(totales, movs[..n])
    {
      var x := movs[n];
      var k := 0;
      while k < |totales| && totales[k].metodo != x.metodo
        invariant 0 <= k <= |totales|
        invariant forall i :: 0 <= i < k ==> totales[i].metodo != x.metodo
      {
        k := k + 1;
      }
      AcumularKeepsTotales(totales, k, x, movs[..n]);
      assert movs[..n + 1] == movs[..n] + [x];
      if k < |totales| {
        totales := totales[k := Total(x.metodo, totales[k].monto + x.monto)];
      } else {
        totales := totales + [Total(x.metodo, x.monto)];
      }
    }
    assert movs[..|movs|] == movs;
  }

  // ---------------------------------------------------------------- the service

  /**
   Whichever open session of a user and branch a reader picks, it is the one BuscarAbierta names:
   the rows hold at most one.
   */
  lemma OpenSessionIsUnique(c: Caja, s: nat)
    requires CajaOk(c) && Abierta(c, s)
    ensures BuscarAbierta(c, c.sesiones[s].usuario, c.sesiones[s].sucursal, 0) == Some(s)
  {
    var r := BuscarAbierta(c, c.sesiones[s].usuario, c.sesiones[s].sucursal, 0);
    assert r.Some?;
    assert r.value < s || s < r.value || r.value == s;
  }

  function Rechazo(o: Outcome<Caja>): Option<ApiError> { if o.Refused? then Some(o.error) else None }

  class CashRegisterTables {
    var sesiones: seq<Sesion>
    var movimientos: seq<Movimiento>

    ghost function Rows(): Caja
      reads this
    {
      Caja(sesiones, movimientos)
    }

    constructor ()
      ensures Rows() == Caja([], []) && CajaOk(Rows())
    {
      sesiones, movimientos := [], [];
    }

    method FindOpen(usuario: nat, sucursal: nat) returns (r: Option<nat>)
      ensures r == BuscarAbierta(Rows(), usuario, sucursal, 0)
    {
      for s := 0 to |sesiones|
        invariant BuscarAbierta(Rows(), usuario, sucursal, 0) == BuscarAbierta(Rows(), usuario, sucursal, s)
      {
        var x := sesiones[s];
        if x.abierta && x.usuario == usuario && x.sucursal == sucursal {
          return Some(s);
        }
      }
      r := None;
    }

    method Open(usuario: nat, sucursal: nat, permiso: SucursalCaja, metodosValidos: bool, saldos: seq<Saldo>)
      returns (error: Option<ApiError>)
      requires CajaOk(Rows())
      modifies this
      ensures Rows() == Abrir(old(Rows()), usuario, sucursal, permiso, metodosValidos, saldos).After(old(Rows()))
      ensures error == Rechazo(Abrir(old(Rows()), usuario, sucursal, permiso, metodosValidos, saldos))
      ensures CajaOk(Rows())
    {
      AbrirKeepsCaja(Rows(), usuario, sucursal, permiso, metodosValidos, saldos);
      var inicial, nuevos := 0, [];
      for i := 0 to |saldos|
        invariant forall k :: 0 <= k < i ==> saldos[k].monto >= 0
        invariant inicial == Sum(saldos[..i], MontoSaldo())
        invariant nuevos == Iniciales(|sesiones|, saldos[..i])
      {
        if saldos[i].monto < 0 { return Some(BadRequest); }
        assert saldos[..i + 1][..i] == saldos[..i];
        inicial := inicial + saldos[i].monto;
        if saldos[i].monto != 0 {
          nuevos := nuevos + [Movimiento(|sesiones|, None, Some(saldos[i].metodo), Apertura, saldos[i].monto)];
        }
      }
      assert saldos[..|saldos|] == saldos;
      if permiso == Inexistente { return Some(NotFound); }
      if permiso != CajaHabilitada { return Some(BadRequest); }
      if !metodosValidos { return Some(NotFound); }
      var existing := FindOpen(usuario, sucursal);
      if existing.Some? { return Some(Conflict); }
      sesiones := sesiones + [Sesion(usuario, sucursal, true, inicial, None, None, None)];
      movimientos := movimientos + nuevos;
      error := None;
    }

    method CreateMovement(usuario: nat, sucursal: nat, retiro: bool, monto: int, metodo: nat, metodoValido: bool)
      returns (error: Option<ApiError>)
      requires CajaOk(Rows())
      modifies `movimientos
      ensures Rows() == Mover(old(Rows()), usuario, sucursal, retiro, monto, metodo, metodoValido).After(old(Rows()))
      ensures error == Rechazo(Mover(old(Rows()), usuario, sucursal, retiro, monto, metodo, metodoValido))
      ensures CajaOk(Rows())
    {
      MoverKeepsCaja(Rows(), usuario, sucursal, retiro, monto, metodo, metodoValido);
      if monto <= 0 { return Some(BadRequest); }
      if !metodoValido { return Some(NotFound); }
      var current := FindOpen(usuario, sucursal);
      if current.None? { return Some(BadRequest); }
      var tipo, importe := if retiro then Retiro else Ingreso, if retiro then -monto else monto;
      movimientos := movimientos + [Movimiento(current.value, None, Some(metodo), tipo, importe)];
      error := None;
    }

    method Close(usuario: nat, sucursal: nat, metodosValidos: bool, declarados: seq<Saldo>)
      returns (error: Option<ApiError>)
      requires CajaOk(Rows())
      modifies `sesiones
      ensures Rows() == Cerrar(old(Rows()), usuario, sucursal, metodosValidos, declarados).After(old(Rows()))
      ensures error == Rechazo(Cerrar(old(Rows()), usuario, sucursal, metodosValidos, declarados))
      ensures CajaOk(Rows())
    {
      CerrarKeepsCaja(Rows(), usuario, sucursal, metodosValidos, declarados);
      var declarado := 0;
      for i := 0 to |declarados|
        invariant forall k :: 0 <= k < i ==> declarados[k].monto >= 0
        invariant declarado == Sum(declarados[..i], MontoSaldo())
      {
        if declarados[i].monto < 0 { return Some(BadRequest); }
        assert declarados[..i + 1][..i] == declarados[..i];
        declarado := declarado + declarados[i].monto;
      }
      assert declarados[..|declarados|] == declarados;
      if !metodosValidos { return Some(NotFound); }
      var current := FindOpen(usuario, sucursal);
      if current.None? { return Some(BadRequest); }
      var s, esperado := current.value, 0;
      for i := 0 to |movimientos|
        invariant esperado == Sum(movimientos[..i], EnSesion(s))
      {
        assert movimientos[..i + 1][..i] == movimientos[..i];
        esperado := esperado + if movimientos[i].sesion == s then movimientos[i].monto else 0;
      }
      assert movimientos[..|movimientos|] == movimientos;
      sesiones := sesiones[s := sesiones[s].(abierta := false, esperado := Some(esperado),
                                             declarado := Some(declarado), diferencia := Some(declarado - esperado))];
      error := None;
    }
  }
}
