/**
 The limits of a company's plan and the endpoints that consume them: attendance employees, stores
 plus attendance sites, and warehouses. Each endpoint is one step; rows are named by position and
 never deleted. A limit of None is no limit.
 */
module PlanLimits {
  import opened Sums
  import opened Wrappers

  datatype Tipo = Tienda | Almacen | Asistencia

  datatype Sucursal = Sucursal(tipo: Tipo, activa: bool, principal: bool, modoCaja: bool)

  datatype Recurso = Branches | Warehouses | AttendanceEmployees

  datatype Limites = Limites(branches: Option<nat>, warehouses: Option<nat>, employees: Option<nat>)

  /** `empleados` holds whether each one is active. */
  datatype Empresa = Empresa(vencido: bool, limites: Limites, empleados: seq<bool>, sucursales: seq<Sucursal>)

  function EsSede(): Sucursal -> int { (s: Sucursal) => if s.tipo == Almacen then 0 else 1 }

  function EsAlmacen(): Sucursal -> int { (s: Sucursal) => if s.tipo == Almacen then 1 else 0 }

  function EsActivo(): bool -> int { (b: bool) => if b then 1 else 0 }

  function EsPrincipal(): Sucursal -> int { (s: Sucursal) => if s.principal then 1 else 0 }

  /** getResourceUsage. */
  function Uso(e: Empresa, r: Recurso): int {
    match r
    case Branches => Sum(e.sucursales, EsSede())
    case Warehouses => Sum(e.sucursales, EsAlmacen())
    case AttendanceEmployees => Sum(e.empleados, EsActivo())
  }

  function Limite(l: Limites, r: Recurso): Option<nat> {
    match r
    case Branches => l.branches
    case Warehouses => l.warehouses
    case AttendanceEmployees => l.employees
  }

  datatype Pedido = Pedido(recurso: Recurso, incremento: int)

  predicate Cabe(e: Empresa, p: Pedido) {
    p.incremento <= 0 || Limite(e.limites, p.recurso).None?
    || Uso(e, p.recurso) + p.incremento <= Limite(e.limites, p.recurso).value
  }

  /** assertResourceLimits as its callers see it: no error exactly when every increment fits. */
  function Exigir(e: Empresa, ps: seq<Pedido>): Option<ApiError> {
    if e.vencido then Some(Forbidden)
    else if forall i :: 0 <= i < |ps| ==> Cabe(e, ps[i]) then None
    else Some(Conflict)
  }

  /** assertResourceLimits: the loop over the requested resources. */
  method AssertResourceLimits(e: Empresa, ps: seq<Pedido>) returns (error: Option<ApiError>)
    ensures error == Exigir(e, ps)
    ensures error == Some(Forbidden) <==> e.vencido
    ensures error == None <==>
              !e.vencido
              && forall i :: 0 <= i < |ps| && ps[i].incremento > 0 && Limite(e.limites, ps[i].recurso).Some? ==>
                   Uso(e, ps[i].recurso) + ps[i].incremento <= Limite(e.limites, ps[i].recurso).value
  {
    if e.vencido { return Some(Forbidden); }
    for i := 0 to |ps|
      invariant forall j :: 0 <= j < i ==> Cabe(e, ps[j])
    {
      var p := ps[i];
      if p.incremento <= 0 { continue; }
      var used := Uso(e, p.recurso);
      var limit := Limite(e.limites, p.recurso);
      if limit.None? { continue; }
      if used + p.incremento > limit.value { return Some(Conflict); }
    }
    error := None;
  }

  // ---------------------------------------------------------------- endpoints

  function RecursoDe(t: Tipo): Recurso { if t == Almacen then Warehouses else Branches }

  function Degradar(ss: seq<Sucursal>): (r: seq<Sucursal>)
    ensures |r| == |ss|
  {
    seq(|ss|, i requires 0 <= i < |ss| => ss[i].(principal := false))
  }

  function Omision<T>(o: Option<T>, d: T): T { if o.Some? then o.value else d }

  function CrearEmpleado(e: Empresa, activo: bool): Outcome<Empresa> {
    var error := if activo then Exigir(e, [Pedido(AttendanceEmployees, 1)]) else None;
    if error.Some? then Refused(error.value) else Done(e.(empleados := e.empleados + [activo]))
  }

  /** update and updateStatus; `leido` is the status read before the transaction. */
  function ActualizarEmpleado(e: Empresa, k: nat, leido: bool, activo: bool): Outcome<Empresa> {
    if k >= |e.empleados| then Refused(NotFound)
    else
      var error := if !leido && activo then Exigir(e, [Pedido(AttendanceEmployees, 1)]) else None;
      if error.Some? then Refused(error.value) else Done(e.(empleados := e.empleados[k := activo]))
  }

  function RemoverEmpleado(e: Empresa, k: nat): Outcome<Empresa> {
    if k >= |e.empleados| then Refused(NotFound) else Done(e.(empleados := e.empleados[k := false]))
  }

  predicate HayTienda(ss: seq<Sucursal>) { exists i :: 0 <= i < |ss| && ss[i].tipo == Tienda }

  function CrearSucursal(e: Empresa, t: Tipo, principal: Option<bool>, caja: Option<bool>, activa: Option<bool>): Outcome<Empresa> {
    var esPrincipal := t == Tienda && Omision(principal, !HayTienda(e.sucursales));
    if t != Tienda && (Omision(caja, false) || Omision(principal, false)) then Refused(BadRequest)
    else
      var error := Exigir(e, [Pedido(RecursoDe(t), 1)]);
      if error.Some? then Refused(error.value)
      else
        var ss := if esPrincipal then Degradar(e.sucursales) else e.sucursales;
        Done(e.(sucursales := ss + [Sucursal(t, Omision(activa, true), esPrincipal, Omision(caja, false))]))
  }

  datatype Cambio = Cambio(tipo: Option<Tipo>, principal: Option<bool>, caja: Option<bool>, activa: Option<bool>)

  /** The row `update` writes, given the row it read. */
  function Cambiada(s: Sucursal, c: Cambio): Sucursal {
    var t := Omision(c.tipo, s.tipo);
    var bajado := c.tipo.Some? && t != Tienda;
    Sucursal(t, Omision(c.activa, s.activa),
             if c.principal.Some? then t == Tienda && c.principal.value else if bajado then false else s.principal,
             if c.caja.Some? then t == Tienda && c.caja.value else if bajado then false else s.modoCaja)
  }

  function ActualizarSucursal(e: Empresa, k: nat, c: Cambio): Outcome<Empresa> {
    if k >= |e.sucursales| then Refused(NotFound)
    else
      var s := e.sucursales[k];
      var error := if c.tipo.Some? && c.tipo.value != s.tipo then Exigir(e, [Pedido(RecursoDe(c.tipo.value), 1)]) else None;
      if error.Some? then Refused(error.value)
      else
        var ss := if c.principal == Some(true) then Degradar(e.sucursales)[k := s] else e.sucursales;
        Done(e.(sucursales := ss[k := Cambiada(s, c)]))
  }

  function RemoverSucursal(e: Empresa, k: nat): Outcome<Empresa> {
    if k >= |e.sucursales| then Refused(NotFound)
    else Done(e.(sucursales := e.sucursales[k := e.sucursales[k].(activa := false, principal := false)]))
  }

  datatype Evento =
    | EvCrearEmpleado(activo: bool)
    | EvActualizarEmpleado(k: nat, activo: bool)
    | EvRemoverEmpleado(k: nat)
    | EvCrearSucursal(t: Tipo, principal: Option<bool>, caja: Option<bool>, activa: Option<bool>)
    | EvActualizarSucursal(k: nat, c: Cambio)
    | EvRemoverSucursal(k: nat)
    | EvPlan(vencido: bool, limites: Limites)

  function Paso(e: Empresa, ev: Evento): Empresa {
    match ev
    case EvCrearEmpleado(a) => CrearEmpleado(e, a).After(e)
    case EvActualizarEmpleado(k, a) => if k < |e.empleados| then ActualizarEmpleado(e, k, e.empleados[k], a).After(e) else e
    case EvRemoverEmpleado(k) => RemoverEmpleado(e, k).After(e)
    case EvCrearSucursal(t, p, c, a) => CrearSucursal(e, t, p, c, a).After(e)
    case EvActualizarSucursal(k, c) => ActualizarSucursal(e, k, c).After(e)
    case EvRemoverSucursal(k) => RemoverSucursal(e, k).After(e)
    case EvPlan(v, l) => e.(vencido := v, limites := l)
  }

  function Correr(e: Empresa, evs: seq<Evento>): Empresa {
    if |evs| == 0 then e else Paso(Correr(e, evs[..|evs| - 1]), evs[|evs| - 1])
  }

  // ---------------------------------------------------------------- what each endpoint does

  /** The plan has not expired and has room for one more. */
  predicate HaySitio(e: Empresa, r: Recurso) {
    !e.vencido && (Limite(e.limites, r).Some? ==> Uso(e, r) < Limite(e.limites, r).value)
  }

  /** A request for one more of a resource is refused by an expired plan, then by a full limit. */
  lemma FitsOne(e: Empresa, r: Recurso)
    ensures Exigir(e, [Pedido(r, 1)]) == if e.vencido then Some(Forbidden) else if HaySitio(e, r) then None else Some(Conflict)
  {
    var ps := [Pedido(r, 1)];
    assert ps[0] == Pedido(r, 1);
    assert (forall i :: 0 <= i < |ps| ==> Cabe(e, ps[i])) <==> Cabe(e, Pedido(r, 1));
  }

  /**
   An active employee takes a place when created or made active, and needs one free; removing one, or
   making one inactive, never needs any. Each writes that employee alone.
   */
  lemma EmployeeEndpoints(e: Empresa, k: nat, activo: bool)
    ensures var o := CrearEmpleado(e, activo);
            && (o.Done? <==> activo ==> HaySitio(e, AttendanceEmployees))
            && (o.Done? ==> o.state == e.(empleados := e.empleados + [activo]))
    ensures k < |e.empleados| ==>
              var o := ActualizarEmpleado(e, k, e.empleados[k], activo);
              && (o.Done? <==> (activo && !e.empleados[k] ==> HaySitio(e, AttendanceEmployees)))
              && (o.Done? ==> o.state == e.(empleados := e.empleados[k := activo]))
    ensures k < |e.empleados| ==> RemoverEmpleado(e, k) == Done(e.(empleados := e.empleados[k := false]))
    ensures k >= |e.empleados| ==> RemoverEmpleado(e, k) == ActualizarEmpleado(e, k, activo, activo) == Refused(NotFound)
  {
    FitsOne(e, AttendanceEmployees);
  }

  predicate SinTienda(ss: seq<Sucursal>) { forall s :: s in ss ==> s.tipo != Tienda }

  /**
   A new branch needs a place under the limit of its type, and only a store may be named principal or
   run a cash register. It is principal when asked to be, or when nothing is said and there is no store
   yet; then no other branch is.
   */
  lemma BranchCreated(e: Empresa, t: Tipo, principal: Option<bool>, caja: Option<bool>, activa: Option<bool>)
    ensures var o, n := CrearSucursal(e, t, principal, caja, activa), |e.sucursales|;
            && (o.Done? <==> (t == Tienda || (caja != Some(true) && principal != Some(true)))
                             && HaySitio(e, if t == Almacen then Warehouses else Branches))
            && (o.Refused? ==>
                  o.error == if t != Tienda && (caja == Some(true) || principal == Some(true)) then BadRequest
                    else if e.vencido then Forbidden else Conflict)
            && Paso(e, EvCrearSucursal(t, principal, caja, activa)) == (if o.Done? then o.state else e)
            && (o.Done? ==>
                  var ss := o.state.sucursales;
                  && o.state == e.(sucursales := ss) && |ss| == n + 1
                  && ss[n].tipo == t && (ss[n].activa <==> activa != Some(false)) && (ss[n].modoCaja <==> caja == Some(true))
                  && (ss[n].principal <==> principal == Some(true) || (principal.None? && t == Tienda && SinTienda(e.sucursales)))
                  && forall i :: 0 <= i < n ==>
                       ss[i] == if ss[n].principal then e.sucursales[i].(principal := false) else e.sucursales[i])
  {
    FitsOne(e, RecursoDe(t));
  }

  /**
   A change of branch keeps what it does not mention. A new type needs a place under its limit, and one
   that is no store ends its being principal and its cash register, asked for or not. Naming it principal
   demotes every other branch; nothing else touches them.
   */
  lemma BranchChanged(e: Empresa, k: nat, c: Cambio)
    requires k < |e.sucursales|
    ensures ActualizarSucursal(e, |e.sucursales| + k, c) == Refused(NotFound)
    ensures var o, s := ActualizarSucursal(e, k, c), e.sucursales[k];
            var cambia := c.tipo.Some? && c.tipo.value != s.tipo;
            && (o.Done? <==> (cambia ==> HaySitio(e, if c.tipo == Some(Almacen) then Warehouses else Branches)))
            && (o.Done? ==>
                  var ss := o.state.sucursales;
                  var r := ss[k];
                  && Paso(e, EvActualizarSucursal(k, c)) == o.state
                  && o.state == e.(sucursales := ss) && |ss| == |e.sucursales|
                  && (c.tipo.None? ==> r.tipo == s.tipo) && (c.tipo.Some? ==> r.tipo == c.tipo.value)
                  && (c.activa.None? ==> r.activa == s.activa) && (c.activa.Some? ==> r.activa == c.activa.value)
                  && (c.principal.Some? ==> (r.principal <==> c.principal.value && r.tipo == Tienda))
                  && (c.principal.None? ==> (r.principal <==> s.principal && (c.tipo.None? || r.tipo == Tienda)))
                  && (c.caja.Some? ==> (r.modoCaja <==> c.caja.value && r.tipo == Tienda))
                  && (c.caja.None? ==> (r.modoCaja <==> s.modoCaja && (c.tipo.None? || r.tipo == Tienda)))
                  && forall i :: 0 <= i < |ss| && i != k ==>
                       ss[i] == if c.principal == Some(true) then e.sucursales[i].(principal := false) else e.sucursales[i])
  {
    if c.tipo.Some? { FitsOne(e, RecursoDe(c.tipo.value)); }
  }

  /** A removed branch stays as a row, neither active nor principal; its place is not given back. */
  lemma BranchRemoved(e: Empresa, k: nat)
    requires k < |e.sucursales|
    ensures RemoverSucursal(e, |e.sucursales| + k) == Refused(NotFound)
    ensures var o, s := RemoverSucursal(e, k), e.sucursales[k];
            && Paso(e, EvRemoverSucursal(k)) == o.After(e)
            && o == Done(e.(sucursales := e.sucursales[k := Sucursal(s.tipo, false, false, s.modoCaja)]))
            && Uso(o.state, Branches) == Uso(e, Branches) && Uso(o.state, Warehouses) == Uso(e, Warehouses)
  {
    var s := e.sucursales[k];
    SumReplace(e.sucursales, k, s.(activa := false, principal := false), EsSede());
    SumReplace(e.sucursales, k, s.(activa := false, principal := false), EsAlmacen());
  }

  // ---------------------------------------------------------------- within the limits

  predicate Dentro(e: Empresa, r: Recurso) {
    Limite(e.limites, r).Some? ==> Uso(e, r) <= Limite(e.limites, r).value
  }

  predicate HastaLimite(n: int, l: Option<nat>) { l.Some? ==> n <= l.value }

  /** In the rows' own terms: stores and attendance sites, warehouses, and active employees, each against its column. */
  lemma WithinIff(e: Empresa)
    ensures (forall r: Recurso :: Dentro(e, r)) <==>
              && HastaLimite(Sum(e.sucursales, (s: Sucursal) => if s.tipo == Tienda || s.tipo == Asistencia then 1 else 0), e.limites.branches)
              && HastaLimite(Sum(e.sucursales, (s: Sucursal) => if s.tipo == Almacen then 1 else 0), e.limites.warehouses)
              && HastaLimite(Sum(e.empleados, (activo: bool) => if activo then 1 else 0), e.limites.employees)
  {
    SumMatch(e.sucursales, e.sucursales, EsSede(), (s: Sucursal) => if s.tipo == Tienda || s.tipo == Asistencia then 1 else 0);
    SumMatch(e.sucursales, e.sucursales, EsAlmacen(), (s: Sucursal) => if s.tipo == Almacen then 1 else 0);
    SumMatch(e.empleados, e.empleados, EsActivo(), (activo: bool) => if activo then 1 else 0);
    assert (forall r: Recurso :: Dentro(e, r)) <==> Dentro(e, Branches) && Dentro(e, Warehouses) && Dentro(e, AttendanceEmployees) by {
      if Dentro(e, Branches) && Dentro(e, Warehouses) && Dentro(e, AttendanceEmployees) {
        forall r: Recurso ensures Dentro(e, r) { match r { case Branches => case Warehouses => case AttendanceEmployees => } }
      }
    }
  }

  /** After a change of plan an active employee is taken exactly when it has not expired and leaves room. */
  lemma PlanChangeIff(e: Empresa, vencido: bool, l: Limites)
    ensures var r := Paso(e, EvPlan(vencido, l));
            && r.empleados == e.empleados && r.sucursales == e.sucursales
            && (CrearEmpleado(r, true).Done? <==> !vencido && HastaLimite(Uso(e, AttendanceEmployees) + 1, l.employees))
            && (CrearEmpleado(r, true).Done? ==> Paso(r, EvCrearEmpleado(true)).empleados == e.empleados + [true])
  {
    FitsOne(Paso(e, EvPlan(vencido, l)), AttendanceEmployees);
  }

  predicate NoMenor(a: Option<nat>, b: Option<nat>) { b.None? || (a.Some? && a.value <= b.value) }

  /** A change of plan that lowers no limit. */
  predicate NoReduce(l: Limites, ev: Evento) {
    ev.EvPlan? ==> forall r: Recurso :: NoMenor(Limite(l, r), Limite(ev.limites, r))
  }

  ghost predicate SinReducciones(e: Empresa, evs: seq<Evento>) {
    |evs| == 0 || (SinReducciones(e, evs[..|evs| - 1]) && NoReduce(Correr(e, evs[..|evs| - 1]).limites, evs[|evs| - 1]))
  }

  lemma {:induction false} DegradarKeepsCounts(ss: seq<Sucursal>)
    ensures Sum(Degradar(ss), EsSede()) == Sum(ss, EsSede())
    ensures Sum(Degradar(ss), EsAlmacen()) == Sum(ss, EsAlmacen())
    ensures Sum(Degradar(ss), EsPrincipal()) == 0
  {
    SumMatch(Degradar(ss), ss, EsSede(), EsSede());
    SumMatch(Degradar(ss), ss, EsAlmacen(), EsAlmacen());
    SumZero(Degradar(ss), EsPrincipal());
  }

  lemma EmployeesStayWithin(e: Empresa, ev: Evento)
    requires Dentro(e, AttendanceEmployees) && NoReduce(e.limites, ev)
    ensures Dentro(Paso(e, ev), AttendanceEmployees)
  {
    match ev {
      case EvCrearEmpleado(a) =>
        SumSnoc(e.empleados, a, EsActivo());
        FitsOne(e, AttendanceEmployees);
      case EvActualizarEmpleado(k, a) =>
        if k < |e.empleados| { SumReplace(e.empleados, k, a, EsActivo()); }
        FitsOne(e, AttendanceEmployees);
      case EvRemoverEmpleado(k) =>
        if k < |e.empleados| { SumReplace(e.empleados, k, false, EsActivo()); }
      case EvPlan(_, l) =>
        assert NoMenor(Limite(e.limites, AttendanceEmployees), Limite(l, AttendanceEmployees));
      case _ =>
    }
  }

  function Cuenta(r: Recurso): Sucursal -> int { if r == Warehouses then EsAlmacen() else EsSede() }

  /** A row of branches is counted by one of the two limits, its own. */
  lemma ReplaceCounts(ss: seq<Sucursal>, k: nat, s: Sucursal, r: Recurso)
    requires k < |ss| && r != AttendanceEmployees
    ensures Sum(ss[k := s], Cuenta(r)) == Sum(ss, Cuenta(r)) - Cuenta(r)(ss[k]) + Cuenta(r)(s)
  {
    SumReplace(ss, k, s, Cuenta(r));
  }

  lemma NewBranchStaysWithin(e: Empresa, ev: Evento, r: Recurso)
    requires r != AttendanceEmployees && Dentro(e, r) && ev.EvCrearSucursal?
    ensures Dentro(Paso(e, ev), r)
  {
    var o := CrearSucursal(e, ev.t, ev.principal, ev.caja, ev.activa);
    if o.Done? {
      var x := o.state.sucursales[|e.sucursales|];
      FitsOne(e, RecursoDe(ev.t));
      DegradarKeepsCounts(e.sucursales);
      SumSnoc(e.sucursales, x, Cuenta(r));
      SumSnoc(Degradar(e.sucursales), x, Cuenta(r));
    }
  }

  lemma ChangedBranchStaysWithin(e: Empresa, ev: Evento, r: Recurso)
    requires r != AttendanceEmployees && Dentro(e, r) && ev.EvActualizarSucursal?
    ensures Dentro(Paso(e, ev), r)
  {
    var o := ActualizarSucursal(e, ev.k, ev.c);
    if o.Done? {
      var s := e.sucursales[ev.k];
      FitsOne(e, RecursoDe(Omision(ev.c.tipo, s.tipo)));
      DegradarKeepsCounts(e.sucursales);
      var d := Degradar(e.sucursales);
      ReplaceCounts(d, ev.k, s, r);
      ReplaceCounts(d[ev.k := s], ev.k, Cambiada(s, ev.c), r);
      ReplaceCounts(e.sucursales, ev.k, Cambiada(s, ev.c), r);
      assert Sum(d, Cuenta(r)) == Sum(e.sucursales, Cuenta(r));
      assert Cuenta(r)(d[ev.k]) == Cuenta(r)(s);
    }
  }

  lemma BranchesStayWithin(e: Empresa, ev: Evento, r: Recurso)
    requires r != AttendanceEmployees && Dentro(e, r) && NoReduce(e.limites, ev)
    ensures Dentro(Paso(e, ev), r)
  {
    match ev {
      case EvCrearSucursal(_, _, _, _) => NewBranchStaysWithin(e, ev, r);
      case EvActualizarSucursal(_, _) => ChangedBranchStaysWithin(e, ev, r);
      case EvRemoverSucursal(k) =>
        if k < |e.sucursales| {
          ReplaceCounts(e.sucursales, k, e.sucursales[k].(activa := false, principal := false), r);
        }
      case EvPlan(_, l) =>
        assert NoMenor(Limite(e.limites, r), Limite(l, r));
      case _ =>
    }
  }

  /**
   While the plan lowers no limit, active employees, stores plus attendance sites, and warehouses
   stay within their limits over any run, type changes and reactivations included.
   */
  lemma {:induction false} ResourcesStayWithin(e: Empresa, evs: seq<Evento>, r: Recurso)
    requires Dentro(e, r) && SinReducciones(e, evs)
    ensures Dentro(Correr(e, evs), r)
  {
    if |evs| == 0 {
    } else {
      var u := evs[..|evs| - 1];
      ResourcesStayWithin(e, u, r);
      if r == AttendanceEmployees {
        EmployeesStayWithin(Correr(e, u), evs[|evs| - 1]);
      } else {
        BranchesStayWithin(Correr(e, u), evs[|evs| - 1], r);
      }
    }
  }

  /** A change of plan whose new limit is not below what is used. */
  predicate PlanAlcanza(e: Empresa, ev: Evento, r: Recurso) {
    ev.EvPlan? && Limite(ev.limites, r).Some? ==> Uso(e, r) <= Limite(ev.limites, r).value
  }

  lemma PasoStaysWithinIff(e: Empresa, ev: Evento, r: Recurso)
    requires Dentro(e, r)
    ensures Dentro(Paso(e, ev), r) <==> PlanAlcanza(e, ev, r)
  {
    if ev.EvPlan? {
    } else if r == AttendanceEmployees {
      EmployeesStayWithin(e, ev);
    } else {
      BranchesStayWithin(e, ev, r);
    }
  }

  predicate SiempreDentro(e: Empresa, evs: seq<Evento>, r: Recurso) {
    Dentro(Correr(e, evs), r) && (|evs| > 0 ==> SiempreDentro(e, evs[..|evs| - 1], r))
  }

  predicate PlanesAlcanzan(e: Empresa, evs: seq<Evento>, r: Recurso) {
    |evs| == 0
    || (PlanesAlcanzan(e, evs[..|evs| - 1], r) && PlanAlcanza(Correr(e, evs[..|evs| - 1]), evs[|evs| - 1], r))
  }

  /** Over any run a resource stays within its limit exactly while no change of plan sets it below what is used. */
  lemma {:induction false} ResourcesStayWithinIff(e: Empresa, evs: seq<Evento>, r: Recurso)
    requires Dentro(e, r)
    ensures SiempreDentro(e, evs, r) <==> PlanesAlcanzan(e, evs, r)
  {
    hide Paso, Dentro, PlanAlcanza;
    if |evs| == 0 {
    } else {
      var u := evs[..|evs| - 1];
      ResourcesStayWithinIff(e, u, r);
      if SiempreDentro(e, u, r) { PasoStaysWithinIff(Correr(e, u), evs[|evs| - 1], r); }
    }
  }

  /**
   Turning a store into an attendance site, or back, uses the same limit as before; it is refused
   all the same exactly when the plan has expired or that limit is full.
   */
  lemma SameLimitTypeChangeRefusedIff(e: Empresa, k: nat, c: Cambio)
    requires k < |e.sucursales| && c.tipo.Some? && c.tipo.value != e.sucursales[k].tipo
    requires c.tipo.value != Almacen && e.sucursales[k].tipo != Almacen
    requires Dentro(e, Branches)
    ensures ActualizarSucursal(e, k, c).Refused? <==>
              e.vencido || (e.limites.branches.Some? && Uso(e, Branches) == e.limites.branches.value)
    ensures ActualizarSucursal(e, k, c).Done? ==> Uso(ActualizarSucursal(e, k, c).state, Branches) == Uso(e, Branches)
  {
    FitsOne(e, Branches);
    var s := e.sucursales[k];
    DegradarKeepsCounts(e.sucursales);
    var d := Degradar(e.sucursales);
    ReplaceCounts(d, k, s, Branches);
    ReplaceCounts(d[k := s], k, Cambiada(s, c), Branches);
    ReplaceCounts(e.sucursales, k, Cambiada(s, c), Branches);
  }

  /**
   The status of an employee is read before the transaction that checks the limit. With a stale read
   the update keeps the limit exactly when no check was skipped wrongly or there was room anyway.
   */
  lemma StaleReadKeepsLimitIff(e: Empresa, k: nat, leido: bool)
    requires k < |e.empleados| && Dentro(e, AttendanceEmployees) && ActualizarEmpleado(e, k, leido, true).Done?
    ensures Dentro(ActualizarEmpleado(e, k, leido, true).state, AttendanceEmployees) <==>
              e.empleados[k] || !leido || e.limites.employees.None? || Uso(e, AttendanceEmployees) < e.limites.employees.value
  {
    SumReplace(e.empleados, k, true, EsActivo());
    FitsOne(e, AttendanceEmployees);
  }

  // ---------------------------------------------------------------- the principal store

  ghost predicate PrincipalOk(ss: seq<Sucursal>) {
    && (forall i, j :: 0 <= i < j < |ss| ==> !(ss[i].principal && ss[j].principal))
    && (forall i :: 0 <= i < |ss| ==> (ss[i].principal || ss[i].modoCaja ==> ss[i].tipo == Tienda))
  }

  lemma PasoKeepsPrincipal(e: Empresa, ev: Evento)
    requires PrincipalOk(e.sucursales)
    ensures PrincipalOk(Paso(e, ev).sucursales)
  {
  }

  /** Over any run at most one branch is the principal one, and it is a store; only stores run a cash register. */
  lemma {:induction false} OnePrincipalAtMost(e: Empresa, evs: seq<Evento>)
    requires PrincipalOk(e.sucursales)
    ensures PrincipalOk(Correr(e, evs).sucursales)
  {
    if |evs| == 0 {
    } else {
      OnePrincipalAtMost(e, evs[..|evs| - 1]);
      PasoKeepsPrincipal(Correr(e, evs[..|evs| - 1]), evs[|evs| - 1]);
    }
  }

  predicate HayPrincipal(ss: seq<Sucursal>) { exists i :: 0 <= i < |ss| && ss[i].principal }

  /**
   Naming a branch principal demotes the others first and only then looks at its type: a principal is
   left exactly when the branch is, or becomes, a store.
   */
  lemma NamingPrincipalKeepsOneIff(e: Empresa, k: nat, c: Cambio)
    requires k < |e.sucursales| && c.principal == Some(true) && ActualizarSucursal(e, k, c).Done?
    ensures HayPrincipal(ActualizarSucursal(e, k, c).state.sucursales) <==> Omision(c.tipo, e.sucursales[k].tipo) == Tienda
  {
    var r := ActualizarSucursal(e, k, c).state.sucursales;
    assert r[k] == Cambiada(e.sucursales[k], c);
  }

  // ---------------------------------------------------------------- a branch read before its transaction

  /** The columns `update` writes, decided on the row read, over the row as it is now. */
  function Escrita(s: Sucursal, leida: Sucursal, c: Cambio): Sucursal {
    var t := Omision(c.tipo, leida.tipo);
    var bajado := c.tipo.Some? && t != Tienda;
    Sucursal(Omision(c.tipo, s.tipo), Omision(c.activa, s.activa),
             if c.principal.Some? then t == Tienda && c.principal.value else if bajado then false else s.principal,
             if c.caja.Some? then t == Tienda && c.caja.value else if bajado then false else s.modoCaja)
  }

  function ActualizarLeida(e: Empresa, k: nat, leida: Sucursal, c: Cambio): Outcome<Empresa>
    requires k < |e.sucursales|
  {
    var error := if c.tipo.Some? && c.tipo.value != leida.tipo then Exigir(e, [Pedido(RecursoDe(c.tipo.value), 1)]) else None;
    if error.Some? then Refused(error.value)
    else
      var s := e.sucursales[k];
      var ss := if c.principal == Some(true) then Degradar(e.sucursales)[k := s] else e.sucursales;
      Done(e.(sucursales := ss[k := Escrita(s, leida, c)]))
  }

  lemma FreshReadIsActualizar(e: Empresa, k: nat, c: Cambio)
    requires k < |e.sucursales|
    ensures ActualizarLeida(e, k, e.sucursales[k], c) == ActualizarSucursal(e, k, c)
  {
  }

  /** Of what the request does not mention nothing goes back to what was read: those columns stay as they are now. */
  lemma StaleChangeKeepsRest(e: Empresa, k: nat, leida: Sucursal, c: Cambio)
    requires k < |e.sucursales| && ActualizarLeida(e, k, leida, c).Done?
    ensures var s, r := e.sucursales[k], ActualizarLeida(e, k, leida, c).state.sucursales[k];
            && (c.activa.None? ==> r.activa == s.activa) && (c.tipo.None? ==> r.tipo == s.tipo)
            && (c.principal.None? && c.tipo.None? ==> r.principal == s.principal)
            && (c.caja.None? && c.tipo.None? ==> r.modoCaja == s.modoCaja)
  {
  }

  /**
   With a stale read the branch limits survive exactly when the branch keeps its kind of limit, the
   check was made, or there was room anyway.
   */
  lemma StaleBranchKeepsLimitIff(e: Empresa, k: nat, leida: Sucursal, c: Cambio, t: Tipo)
    requires k < |e.sucursales| && ActualizarLeida(e, k, leida, c).Done? && t == Omision(c.tipo, e.sucursales[k].tipo)
    requires Dentro(e, RecursoDe(t))
    ensures Dentro(ActualizarLeida(e, k, leida, c).state, RecursoDe(t)) <==>
              || RecursoDe(t) == RecursoDe(e.sucursales[k].tipo)
              || t != leida.tipo
              || Limite(e.limites, RecursoDe(t)).None? || Uso(e, RecursoDe(t)) < Limite(e.limites, RecursoDe(t)).value
  {
    var s, d, r := e.sucursales[k], Degradar(e.sucursales), RecursoDe(t);
    FitsOne(e, r);
    DegradarKeepsCounts(e.sucursales);
    ReplaceCounts(d, k, s, r);
    ReplaceCounts(d[k := s], k, Escrita(s, leida, c), r);
    ReplaceCounts(e.sucursales, k, Escrita(s, leida, c), r);
    assert Cuenta(r)(d[k]) == Cuenta(r)(s);
  }

  /**
   And the principal store stays what it must be exactly unless the branch was read as a store, is one
   no longer, and the request, without a type of its own, names it principal or gives it a cash register.
   */
  lemma StaleBranchKeepsPrincipalIff(e: Empresa, k: nat, leida: Sucursal, c: Cambio)
    requires k < |e.sucursales| && PrincipalOk(e.sucursales) && ActualizarLeida(e, k, leida, c).Done?
    ensures PrincipalOk(ActualizarLeida(e, k, leida, c).state.sucursales) <==>
              !(c.tipo.None? && leida.tipo == Tienda && e.sucursales[k].tipo != Tienda
                && (c.principal == Some(true) || c.caja == Some(true)))
  {
    var r := ActualizarLeida(e, k, leida, c).state.sucursales;
    assert r[k] == Escrita(e.sucursales[k], leida, c);
  }

  // ---------------------------------------------------------------- branches as written

  class BranchTables {
    var vencido: bool
    var limites: Limites
    var empleados: seq<bool>
    var sucursales: seq<Sucursal>

    ghost function Rows(): Empresa
      reads this
    {
      Empresa(vencido, limites, empleados, sucursales)
    }

    constructor (l: Limites)
      ensures Rows() == Empresa(false, l, [], [])
    {
      vencido, limites, empleados, sucursales := false, l, [], [];
    }

    /** updateMany: demote every branch but `salvo`. */
    method Demote(salvo: Option<nat>)
      modifies `sucursales
      ensures sucursales == if salvo.Some? && salvo.value < |old(sucursales)|
                            then Degradar(old(sucursales))[salvo.value := old(sucursales)[salvo.value]] else Degradar(old(sucursales))
    {
      var i := 0;
      while i < |sucursales|
        invariant 0 <= i <= |sucursales| == |old(sucursales)|
        invariant forall j :: 0 <= j < i ==>
                    sucursales[j] == if salvo == Some(j) then old(sucursales)[j] else old(sucursales)[j].(principal := false)
        invariant forall j :: i <= j < |sucursales| ==> sucursales[j] == old(sucursales)[j]
      {
        if salvo != Some(i) {
          sucursales := sucursales[i := sucursales[i].(principal := false)];
        }
        i := i + 1;
      }
    }

    method Create(t: Tipo, principal: Option<bool>, caja: Option<bool>, activa: Option<bool>) returns (error: Option<ApiError>)
      modifies `sucursales
      ensures Rows() == CrearSucursal(old(Rows()), t, principal, caja, activa).After(old(Rows()))
      ensures error.None? <==> CrearSucursal(old(Rows()), t, principal, caja, activa).Done?
    {
      var esPrincipal := t == Tienda && (if principal.Some? then principal.value else !HayTienda(sucursales));
      var modoCaja := caja.Some? && caja.value;
      if t != Tienda && modoCaja { return Some(BadRequest); }
      if t != Tienda && principal.Some? && principal.value { return Some(BadRequest); }
      error := AssertResourceLimits(Empresa(vencido, limites, empleados, sucursales), [Pedido(RecursoDe(t), 1)]);
      if error.Some? { return; }
      if esPrincipal { Demote(None); }
      sucursales := sucursales + [Sucursal(t, if activa.Some? then activa.value else true, esPrincipal, modoCaja)];
    }

    method Update(k: nat, c: Cambio) returns (error: Option<ApiError>)
      modifies `sucursales
      ensures Rows() == ActualizarSucursal(old(Rows()), k, c).After(old(Rows()))
      ensures error.None? <==> ActualizarSucursal(old(Rows()), k, c).Done?
    {
      if k >= |sucursales| { return Some(NotFound); }
      var current := sucursales[k];
      var data := BuildData(current, c);
      if c.tipo.Some? && c.tipo.value != current.tipo {
        error := AssertResourceLimits(Empresa(vencido, limites, empleados, sucursales), [Pedido(RecursoDe(c.tipo.value), 1)]);
        if error.Some? { return; }
      }
      if c.principal == Some(true) { Demote(Some(k)); }
      sucursales := sucursales[k := data];
      error := None;
    }
  }

  /** The row of `update`, built field by field from what the request mentions. */
  method BuildData(current: Sucursal, c: Cambio) returns (data: Sucursal)
    ensures data == Cambiada(current, c)
    ensures data.principal || data.modoCaja ==> data.tipo == Tienda || (c.tipo.None? && data.tipo == current.tipo)
  {
    data := current;
    var nextTipo := if c.tipo.Some? then c.tipo.value else current.tipo;
    if c.tipo.Some? {
      data := data.(tipo := c.tipo.value);
      if c.tipo.value != Tienda {
        data := data.(principal := false, modoCaja := false);
      }
    }
    if c.activa.Some? { data := data.(activa := c.activa.value); }
    if c.principal.Some? { data := data.(principal := nextTipo == Tienda && c.principal.value); }
    if c.caja.Some? { data := data.(modoCaja := nextTipo == Tienda && c.caja.value); }
  }
}
