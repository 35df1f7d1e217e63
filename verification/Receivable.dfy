/**
 The receivable ledger of one sale: the account, its installments (cuotas), payments,
 per-installment applications and the cash rows the operations write.

 Money is integer cents. A payment is identified by its position in `pagos`. Installments are
 kept in (fechaVencimiento, numero) order, the order every reader of the table asks for.
 Each operation is a function from the rows before the transaction to its Outcome.
 */
module Receivable {
  import opened Sums
  import opened Wrappers
  import opened CashRegister

  datatype CuotaEstado = CuotaPendiente | CuotaParcial | CuotaPagada | CuotaAnulada

  datatype Cuota = Cuota(numero: nat, vence: int, original: int, pagado: int, saldo: int, estado: CuotaEstado)

  datatype CuentaEstado = Pendiente | Parcial | Pagada | AnulacionPendiente | Anulada

  datatype Cuenta = Cuenta(
    totalVenta: int, adelanto: int, saldoInicial: int, saldoPendiente: int, saldoFavor: int, estado: CuentaEstado)

  datatype Pago = Pago(cobranza: bool, requestId: Option<nat>, metodo: nat, monto: int, vuelto: int, activo: bool)

  datatype Aplicacion = Aplicacion(cuota: nat, pago: nat, monto: int)

  datatype Ledger = Ledger(
    cuenta: Option<Cuenta>, cuotas: seq<Cuota>, pagos: seq<Pago>, aplicaciones: seq<Aplicacion>, caja: Caja)

  // ---------------------------------------------------------------- columns to sum

  function SaldoDe(): Cuota -> int { (c: Cuota) => c.saldo }

  function Original(): Cuota -> int { (c: Cuota) => c.original }

  function PagadoVivo(): Cuota -> int { (c: Cuota) => if c.estado == CuotaAnulada then 0 else c.pagado }

  function OriginalVivo(): Cuota -> int { (c: Cuota) => if c.estado == CuotaAnulada then 0 else c.original }

  function DeCuota(n: nat): Aplicacion -> int { (a: Aplicacion) => if a.cuota == n then a.monto else 0 }

  function DePago(p: nat): Aplicacion -> int { (a: Aplicacion) => if a.pago == p then a.monto else 0 }

  function DeAmbos(n: nat, p: nat): Aplicacion -> int {
    (a: Aplicacion) => if a.cuota == n && a.pago == p then a.monto else 0
  }

  function CobranzaActiva(): Pago -> int { (p: Pago) => if p.cobranza && p.activo then p.monto else 0 }

  function CajaDePago(p: nat): Movimiento -> int { (m: Movimiento) => if m.pago == Some(p) then m.monto else 0 }

  // ---------------------------------------------------------------- registerPayment

  /** What an installment can still take; the query only reads rows with a positive balance. */
  function Abierto(c: Cuota): int { if c.saldo > 0 then c.saldo else 0 }

  /** The open balance of the first k installments. */
  function Antes(cs: seq<Cuota>, k: nat): int
    requires k <= |cs|
  {
    if k == 0 then 0 else Antes(cs, k - 1) + Abierto(cs[k - 1])
  }

  /** Closed form of the waterfall: what installment k receives of a payment. */
  function Parte(cs: seq<Cuota>, monto: int, k: nat): int
    requires k < |cs|
  {
    Min(Abierto(cs[k]), Max(0, monto - Antes(cs, k)))
  }

  function Abonar(c: Cuota, x: int): Cuota {
    if x <= 0 then c
    else c.(pagado := c.pagado + x, saldo := c.saldo - x,
            estado := if c.saldo - x == 0 then CuotaPagada else CuotaParcial)
  }

  function Repartir(cs: seq<Cuota>, monto: int): (r: seq<Cuota>)
    ensures |r| == |cs|
  {
    seq(|cs|, k requires 0 <= k < |cs| => Abonar(cs[k], Parte(cs, monto, k)))
  }

  /** The application rows of the first k installments. */
  function Aplicar(cs: seq<Cuota>, monto: int, pago: nat, k: nat): seq<Aplicacion>
    requires k <= |cs|
  {
    if k == 0 then []
    else
      Aplicar(cs, monto, pago, k - 1) +
      (if Parte(cs, monto, k - 1) > 0 then [Aplicacion(cs[k - 1].numero, pago, Parte(cs, monto, k - 1))] else [])
  }

  /** The branch of a payment and what its cash mode demands. */
  datatype CajaPago = SinSucursal | SucursalAusente | ModoCajaApagado | ModoCaja(usuario: nat, sucursal: nat)

  datatype MetodoPago = MetodoPago(id: nat, permiteVuelto: bool)

  datatype PagoDto = PagoDto(
    requestId: nat, monto: int, recibido: Option<int>, metodo: Option<MetodoPago>, caja: CajaPago)

  predicate Repetido(pagos: seq<Pago>, requestId: nat) {
    exists i :: 0 <= i < |pagos| && pagos[i].requestId == Some(requestId)
  }

  function Recibido(d: PagoDto): int { if d.recibido.Some? then d.recibido.value else d.monto }

  /** resolveCashSession: a session to write into, none, or an error. */
  function ResolverCaja(c: Caja, x: CajaPago): Outcome<Option<nat>> {
    match x
    case SinSucursal => Done(None)
    case SucursalAusente => Refused(NotFound)
    case ModoCajaApagado => Done(None)
    case ModoCaja(u, s) =>
      var abierta := BuscarAbierta(c, u, s, 0);
      if abierta.None? then Refused(BadRequest) else Done(abierta)
  }

  function EstadoTrasAbono(saldoPendiente: int): CuentaEstado {
    if saldoPendiente == 0 then Pagada else Parcial
  }

  function Registrar(l: Ledger, d: PagoDto): Outcome<Ledger> {
    if d.monto <= 0 then Refused(BadRequest)
    else if l.cuenta.None? then Refused(NotFound)
    else if Repetido(l.pagos, d.requestId) then Done(l)
    else if d.metodo.None? then Refused(NotFound)
    else if d.recibido.Some? && d.recibido.value <= 0 then Refused(BadRequest)
    else if Recibido(d) < d.monto then Refused(BadRequest)
    else if !d.metodo.value.permiteVuelto && Recibido(d) != d.monto then Refused(BadRequest)
    else
      var cuenta := l.cuenta.value;
      if cuenta.estado == Anulada || cuenta.estado == AnulacionPendiente then Refused(BadRequest)
      else if d.monto > cuenta.saldoPendiente then Refused(BadRequest)
      else
        match ResolverCaja(l.caja, d.caja)
        case Refused(e) => Refused(e)
        case Done(sesion) =>
          if d.monto > Antes(l.cuotas, |l.cuotas|) then Refused(Conflict)
          else Done(Registrado(l, d, cuenta, sesion))
  }

  function Registrado(l: Ledger, d: PagoDto, cuenta: Cuenta, sesion: Option<nat>): Ledger
    requires d.metodo.Some?
  {
    var p := |l.pagos|;
    var vuelto := if d.metodo.value.permiteVuelto then Recibido(d) - d.monto else 0;
    var pendiente := cuenta.saldoPendiente - d.monto;
    Ledger(
      Some(cuenta.(saldoPendiente := pendiente, estado := EstadoTrasAbono(pendiente))),
      Repartir(l.cuotas, d.monto),
      l.pagos + [Pago(true, Some(d.requestId), d.metodo.value.id, d.monto, vuelto, true)],
      l.aplicaciones + Aplicar(l.cuotas, d.monto, p, |l.cuotas|),
      Agregar(l.caja, Cobro(sesion, p, d)))
  }

  function Cobro(sesion: Option<nat>, p: nat, d: PagoDto): seq<Movimiento>
    requires d.metodo.Some?
  {
    if sesion.None? then []
    else [Movimiento(sesion.value, Some(p), Some(d.metodo.value.id), Cobranza, d.monto)]
  }

  // ---------------------------------------------------------------- annulPayment

  /** The balance a deleted application gives back, with the clamp the code applies. */
  function Devolver(c: Cuota, x: int): Cuota {
    var pagado := Max(c.pagado - x, 0);
    c.(pagado := pagado, saldo := c.saldo + x, estado := if pagado == 0 then CuotaPendiente else CuotaParcial)
  }

  function AplicadoA(apps: seq<Aplicacion>, n: nat, p: nat): int { Sum(apps, DeAmbos(n, p)) }

  function Deshacer(cs: seq<Cuota>, apps: seq<Aplicacion>, p: nat): (r: seq<Cuota>)
    ensures |r| == |cs|
  {
    seq(|cs|, k requires 0 <= k < |cs| =>
      var x := AplicadoA(apps, cs[k].numero, p); if x == 0 then cs[k] else Devolver(cs[k], x))
  }

  function NoDe(p: nat): Aplicacion -> bool { (a: Aplicacion) => a.pago != p }

  function MovDe(p: nat): Movimiento -> bool { (m: Movimiento) => m.pago == Some(p) }

  function Reversas(movs: seq<Movimiento>, p: nat, pago: Pago): seq<Movimiento> {
    var mios := Filter(movs, MovDe(p));
    seq(|mios|, k requires 0 <= k < |mios| =>
      Movimiento(mios[k].sesion, Some(p), Some(pago.metodo), AnulacionCobranza, -pago.monto))
  }

  /** Some other collection is still active. */
  predicate OtraActiva(pagos: seq<Pago>, p: nat) {
    exists i :: 0 <= i < |pagos| && i != p && pagos[i].cobranza && pagos[i].activo
  }

  predicate EnCajaCerrada(c: Caja, p: nat) {
    exists i :: 0 <= i < |c.movimientos| && c.movimientos[i].pago == Some(p) && !Abierta(c, c.movimientos[i].sesion)
  }

  function AnularPago(l: Ledger, p: nat, razonVacia: bool): Outcome<Ledger> {
    if razonVacia then Refused(BadRequest)
    else if p >= |l.pagos| || !l.pagos[p].cobranza || l.cuenta.None? then Refused(NotFound)
    else if !l.pagos[p].activo then Refused(BadRequest)
    else if EnCajaCerrada(l.caja, p) then Refused(BadRequest)
    else if l.cuenta.value.estado == Anulada then Refused(BadRequest)
    else
      var cuenta, pago := l.cuenta.value, l.pagos[p];
      Done(Ledger(
             Some(cuenta.(saldoPendiente := cuenta.saldoPendiente + pago.monto,
                          estado := if OtraActiva(l.pagos, p) || cuenta.adelanto > 0 then Parcial else Pendiente)),
             Deshacer(l.cuotas, l.aplicaciones, p),
             l.pagos[p := pago.(activo := false)],
             Filter(l.aplicaciones, NoDe(p)),
             Agregar(l.caja, Reversas(l.caja.movimientos, p, pago))))
  }

  // ---------------------------------------------------------------- accepted debit note

  function MayorNumero(cs: seq<Cuota>): nat {
    if |cs| == 0 then 0 else Max(MayorNumero(cs[..|cs| - 1]), cs[|cs| - 1].numero)
  }

  predicate AntesDe(a: Cuota, b: Cuota) {
    a.vence < b.vence || (a.vence == b.vence && a.numero < b.numero)
  }

  /** Where a new row lands in the order of the table. */
  function Lugar(cs: seq<Cuota>, c: Cuota): (k: nat)
    ensures k <= |cs|
    ensures k < |cs| ==> !AntesDe(cs[|cs| - 1], c)
    ensures k > 0 ==> AntesDe(cs[k - 1], c)
  {
    if |cs| == 0 then 0
    else if AntesDe(cs[|cs| - 1], c) then |cs|
    else Lugar(cs[..|cs| - 1], c)
  }

  function Insertar(cs: seq<Cuota>, c: Cuota): seq<Cuota> {
    var k := Lugar(cs, c); cs[..k] + [c] + cs[k..]
  }

  function NuevaCuota(cs: seq<Cuota>, vence: int, total: int): Cuota {
    Cuota(MayorNumero(cs) + 1, vence, total, 0, total, CuotaPendiente)
  }

  /** applyAcceptedEffects on the account of the sale; it opens one when the sale was paid in cash. */
  function CargarDebito(l: Ledger, ventaTotal: int, total: int, vence: int): Ledger {
    match l.cuenta
    case Some(c) =>
      l.(cuenta := Some(c.(totalVenta := c.totalVenta + total, saldoInicial := c.saldoInicial + total,
                           saldoPendiente := c.saldoPendiente + total,
                           estado := if c.adelanto > 0 then Parcial else Pendiente)),
         cuotas := Insertar(l.cuotas, NuevaCuota(l.cuotas, vence, total)))
    case None =>
      l.(cuenta := Some(Cuenta(ventaTotal + total, ventaTotal, total, total, 0, Parcial)),
         cuotas := [Cuota(1, vence, total, 0, total, CuotaPendiente)])
  }

  // ---------------------------------------------------------------- accepted credit note

  /** The open balance from installment k to the last: what the reverse loop has already met. */
  function Despues(cs: seq<Cuota>, k: nat): int
    requires k <= |cs|
    decreases |cs| - k
  {
    if k == |cs| then 0 else Abierto(cs[k]) + Despues(cs, k + 1)
  }

  /** What a credit note takes off installment k, last due first. */
  function Rebaja(cs: seq<Cuota>, total: int, k: nat): int
    requires k < |cs|
  {
    Min(Abierto(cs[k]), Max(0, total - Despues(cs, k + 1)))
  }

  function Rebajar(c: Cuota, x: int): Cuota {
    if x <= 0 then c
    else
      var saldo := c.saldo - x;
      c.(original := c.pagado + saldo, saldo := saldo,
         estado := if saldo == 0 then CuotaPagada else if c.pagado > 0 then CuotaParcial else CuotaPendiente)
  }

  function RebajarTodas(cs: seq<Cuota>, total: int): (r: seq<Cuota>)
    ensures |r| == |cs|
  {
    seq(|cs|, k requires 0 <= k < |cs| => Rebajar(cs[k], Rebaja(cs, total, k)))
  }

  function Cancelar(c: Cuota): Cuota { if c.saldo > 0 then c.(estado := CuotaAnulada, saldo := 0) else c }

  /** Accepted return note on the account: motive 07 (partial) or 06 (total). */
  function AcreditarNota(l: Ledger, total: int, devolucionTotal: bool): Ledger {
    if l.cuenta.None? || l.cuenta.value.estado == Anulada then l
    else
      var c := l.cuenta.value;
      var pendiente := Max(c.saldoPendiente - total, 0);
      var cuotas := RebajarTodas(l.cuotas, total);
      l.(cuenta := Some(c.(totalVenta := Max(c.totalVenta - total, 0), saldoPendiente := pendiente,
                           saldoFavor := c.saldoFavor + Max(total - c.saldoPendiente, 0),
                           estado := if devolucionTotal then Anulada else EstadoTrasAbono(pendiente))),
         cuotas := if devolucionTotal
           then seq(|cuotas|, k requires 0 <= k < |cuotas| => Cancelar(cuotas[k])) else cuotas)
  }

  // ---------------------------------------------------------------- void request, restore, finalise

  function PedirBaja(l: Ledger): Ledger {
    if l.cuenta.None? then l else l.(cuenta := Some(l.cuenta.value.(estado := AnulacionPendiente)))
  }

  function EstadoRestaurado(c: Cuenta): CuentaEstado {
    if c.saldoPendiente == 0 then Pagada else if c.adelanto > 0 then Parcial else Pendiente
  }

  function Restaurar(l: Ledger): Ledger {
    if l.cuenta.None? || l.cuenta.value.estado != AnulacionPendiente then l
    else l.(cuenta := Some(l.cuenta.value.(estado := EstadoRestaurado(l.cuenta.value))))
  }

  /** A cash row that the reversal of a sale undoes. */
  function Reversible(l: Ledger): Movimiento -> bool {
    (m: Movimiento) =>
      m.pago.Some? && m.pago.value < |l.pagos| && l.pagos[m.pago.value].activo
      && (m.tipo == Venta || m.tipo == Cobranza) && Abierta(l.caja, m.sesion)
  }

  function Contra(m: Movimiento): Movimiento { m.(tipo := AnulacionVenta, monto := -m.monto) }

  function ReversasDeVenta(l: Ledger): seq<Movimiento> {
    var vivos := Filter(l.caja.movimientos, Reversible(l));
    seq(|vivos|, k requires 0 <= k < |vivos| => Contra(vivos[k]))
  }

  /** finalizeCommercialAnnul, on the rows of this module. */
  function Revertir(l: Ledger): Ledger {
    Ledger(
      if l.cuenta.None? then None else Some(l.cuenta.value.(estado := Anulada, saldoPendiente := 0)),
      if l.cuenta.None? then l.cuotas
      else seq(|l.cuotas|, k requires 0 <= k < |l.cuotas| => l.cuotas[k].(estado := CuotaAnulada, saldo := 0)),
      seq(|l.pagos|, k requires 0 <= k < |l.pagos| => l.pagos[k].(activo := false)),
      l.aplicaciones,
      Agregar(l.caja, ReversasDeVenta(l)))
  }
}
