/**
 Credit notes on one sale: which quantities a note may credit, what the active notes add up to over
 any run, and how the amounts of a sale line are prorated.
 A sale line is named by its position; amounts are integer cents.
 */
module CreditNotes {
  import opened Sums
  import opened Wrappers
  import opened Rounding
  import opened FiscalTotals

  /** 02 and 03 are documental, 06 returns everything that is left, 07 the chosen items. */
  datatype Motivo = M02 | M03 | M06 | M07

  datatype SunatEstado =
    | pendiente_envio | enviando | pendiente_cdr | aceptado | observado | error_transitorio
    | rechazado | error_definitivo | no_aplica

  datatype Detalle = Detalle(
    cantidad: nat, afectacion: Afectacion, descuento: nat, valor: nat, igv: nat, subtotal: nat, total: nat)

  datatype Linea = Linea(
    detalle: nat, cantidad: nat, afectacion: Afectacion, descuento: nat, valor: nat, igv: nat, subtotal: nat, total: nat)

  datatype Item = Item(detalle: nat, cantidad: nat)

  datatype Nota = Nota(motivo: Motivo, estado: SunatEstado, lineas: seq<Linea>)

  predicate Activa(e: SunatEstado) {
    e == pendiente_envio || e == enviando || e == pendiente_cdr || e == aceptado || e == observado || e == error_transitorio
  }

  predicate Descuenta(n: Nota) { Activa(n.estado) && n.motivo != M03 }

  function DeDetalle(d: nat): Linea -> int { (l: Linea) => if l.detalle == d then l.cantidad else 0 }

  function Pedido(d: nat): Item -> int { (x: Item) => if x.detalle == d then x.cantidad else 0 }

  function Tomado(n: Nota, d: nat): int { Sum(n.lineas, DeDetalle(d)) }

  function Aporte(d: nat): Nota -> int { (n: Nota) => if Descuenta(n) then Tomado(n, d) else 0 }

  /** The quantity of a sale line credited by the active notes. */
  function Acreditado(notas: seq<Nota>, d: nat): int { Sum(notas, Aporte(d)) }

  /** availableQuantities, for one line. */
  function Disponible(ds: seq<Detalle>, notas: seq<Nota>, d: nat): nat
    requires d < |ds|
  {
    Max(0, ds[d].cantidad - Max(Acreditado(notas, d), 0))
  }

  // ---------------------------------------------------------------- amounts of a line

  function Prorrata(x: nat, q: nat, total: nat): nat
    requires total > 0
  {
    HalfUp(x * q, total)
  }

  function LineFromSaleDetail(i: nat, d: Detalle, q: nat): Linea
    requires q > 0 ==> d.cantidad > 0
  {
    if q == 0 then Linea(i, 0, d.afectacion, 0, 0, 0, 0, 0)
    else
      Linea(i, q, d.afectacion, Prorrata(d.descuento, q, d.cantidad), Prorrata(d.valor, q, d.cantidad),
            Prorrata(d.igv, q, d.cantidad), Prorrata(d.subtotal, q, d.cantidad), Prorrata(d.total, q, d.cantidad))
  }

  /** Returning the whole line credits its amounts to the cent. */
  lemma FullQuantityIsExact(i: nat, d: Detalle)
    requires d.cantidad > 0
    ensures LineFromSaleDetail(i, d, d.cantidad) == Linea(i, d.cantidad, d.afectacion, d.descuento, d.valor, d.igv, d.subtotal, d.total)
  {
    HalfUpOfMultiple(d.descuento, d.cantidad);
    HalfUpOfMultiple(d.valor, d.cantidad);
    HalfUpOfMultiple(d.igv, d.cantidad);
    HalfUpOfMultiple(d.subtotal, d.cantidad);
    HalfUpOfMultiple(d.total, d.cantidad);
  }

  /** Value plus tax of a credited line is within a cent of its total when the sale line adds up. */
  lemma LineWithinOneCent(i: nat, d: Detalle, q: nat)
    requires q > 0 ==> d.cantidad > 0
    requires d.valor + d.igv == d.total
    ensures var l := LineFromSaleDetail(i, d, q); -1 <= l.valor + l.igv - l.total <= 1
  {
    hide HalfUp;
    if q > 0 {
      assert d.valor * q + d.igv * q == d.total * q;
      RoundedPartsAdd(d.valor * q, d.igv * q, d.cantidad);
    }
  }

  function Id(): nat -> int { (x: nat) => x }

  function ParteDe(x: nat, total: nat): nat -> int
    requires total > 0
  {
    (q: nat) => Prorrata(x, q, total)
  }

  /** One more piece adds one more rounding error. */
  lemma OnePieceMore(x: nat, total: nat, a: int, b: int, r: int, q: nat, k: nat)
    requires -(total * k) <= 2 * total * a - 2 * x * b <= total * k
    requires -(total as int) < 2 * total * r - 2 * (x * q) <= total
    ensures -(total * (k + 1)) <= 2 * total * (a + r) - 2 * x * (b + q) <= total * (k + 1)
  {
    assert 2 * total * (a + r) == 2 * total * a + 2 * total * r;
    assert 2 * x * (b + q) == 2 * x * b + 2 * (x * q);
    assert total * (k + 1) == total * k + total;
  }

  lemma {:induction false} DriftStep(x: nat, total: nat, qs: seq<nat>)
    requires total > 0
    ensures -(total * |qs|) <= 2 * total * Sum(qs, ParteDe(x, total)) - 2 * x * Sum(qs, Id()) <= total * |qs|
  {
    hide HalfUp;
    if |qs| == 0 {
    } else {
      var u, q := qs[..|qs| - 1], qs[|qs| - 1];
      DriftStep(x, total, u);
      HalfUpIsNearest(x * q, total);
      OnePieceMore(x, total, Sum(u, ParteDe(x, total)), Sum(u, Id()), Prorrata(x, q, total), q, |u|);
    }
  }

  lemma HalvesOfWhole(x: nat, total: nat, s: int, k: nat)
    requires total > 0 && -(total * k) <= 2 * total * s - 2 * x * total <= total * k
    ensures -(k as int) <= 2 * (s - x) <= k
  {
    assert 2 * total * (s - x) == 2 * total * s - 2 * x * total;
    assert total * k == k * total;
    WithinHalves(total, s - x, k);
  }

  /**
   Any amount of a line returned piece by piece: once all of it is back, the credited pieces differ
   from the amount by at most half a cent per piece.
   */
  lemma PartialReturnsDrift(x: nat, total: nat, qs: seq<nat>)
    requires total > 0 && Sum(qs, Id()) == total
    ensures -(|qs| as int) <= 2 * (Sum(qs, ParteDe(x, total)) - x) <= |qs|
  {
    hide Sum, HalfUp;
    DriftStep(x, total, qs);
    HalvesOfWhole(x, total, Sum(qs, ParteDe(x, total)), |qs|);
  }

  // ---------------------------------------------------------------- buildLines

  /** One line per sale line, with the quantities qs. */
  function Todas(ds: seq<Detalle>, qs: seq<nat>): (r: seq<Linea>)
    requires |qs| == |ds| && forall i :: 0 <= i < |ds| ==> qs[i] <= ds[i].cantidad
    ensures |r| == |ds|
  {
    seq(|ds|, i requires 0 <= i < |ds| => LineFromSaleDetail(i, ds[i], qs[i]))
  }

  function Cantidades(ds: seq<Detalle>): (r: seq<nat>)
    ensures |r| == |ds| && forall i :: 0 <= i < |ds| ==> r[i] == ds[i].cantidad
  {
    seq(|ds|, i requires 0 <= i < |ds| => ds[i].cantidad)
  }

  function Disponibles(ds: seq<Detalle>, notas: seq<Nota>): (r: seq<nat>)
    ensures |r| == |ds| && forall i :: 0 <= i < |ds| ==> r[i] == Disponible(ds, notas, i) <= ds[i].cantidad
  {
    seq(|ds|, i requires 0 <= i < |ds| => Disponible(ds, notas, i))
  }

  function ConCantidad(): Linea -> bool { (l: Linea) => l.cantidad > 0 }

  predicate ItemOk(ds: seq<Detalle>, notas: seq<Nota>, x: Item) {
    x.detalle < |ds| && x.cantidad <= Disponible(ds, notas, x.detalle)
  }

  predicate ItemsOk(ds: seq<Detalle>, notas: seq<Nota>, items: seq<Item>) {
    forall i :: 0 <= i < |items| ==> ItemOk(ds, notas, items[i])
  }

  function LineasDe(ds: seq<Detalle>, notas: seq<Nota>, items: seq<Item>): (r: seq<Linea>)
    requires ItemsOk(ds, notas, items)
    ensures |r| == |items|
  {
    seq(|items|, i requires 0 <= i < |items| =>
      assert ItemOk(ds, notas, items[i]);
      LineFromSaleDetail(items[i].detalle, ds[items[i].detalle], items[i].cantidad))
  }

  function BuildLines(ds: seq<Detalle>, notas: seq<Nota>, m: Motivo, items: seq<Item>): Outcome<seq<Linea>> {
    if m != M07 && |items| > 0 then Refused(BadRequest)
    else if m == M07 && |items| == 0 then Refused(BadRequest)
    else if m == M02 || m == M03 then Done(Todas(ds, Cantidades(ds)))
    else if m == M06 then
      var ls := Filter(Todas(ds, Disponibles(ds, notas)), ConCantidad());
      if |ls| == 0 then Refused(BadRequest) else Done(ls)
    else if ItemsOk(ds, notas, items) then Done(LineasDe(ds, notas, items))
    else Refused(BadRequest)
  }

  /** create: the lines computed from what was read, written as a new note awaiting emission. */
  function Crear(ds: seq<Detalle>, notas: seq<Nota>, m: Motivo, items: seq<Item>): Outcome<seq<Nota>> {
    match BuildLines(ds, notas, m, items)
    case Refused(e) => Refused(e)
    case Done(ls) => Done(notas + [Nota(m, pendiente_envio, ls)])
  }

  lemma {:induction false} TodasPrefix(ds: seq<Detalle>, qs: seq<nat>, k: nat, d: nat)
    requires |qs| == |ds| && (forall i :: 0 <= i < |ds| ==> qs[i] <= ds[i].cantidad)
    requires k <= |ds| && d < |ds|
    ensures Sum(Todas(ds, qs)[..k], DeDetalle(d)) == if d < k then qs[d] else 0
  {
    if k == 0 {
    } else {
      TodasPrefix(ds, qs, k - 1, d);
      SumPrefix(Todas(ds, qs), k - 1, DeDetalle(d));
    }
  }

  lemma TodasTakes(ds: seq<Detalle>, qs: seq<nat>, d: nat)
    requires |qs| == |ds| && (forall i :: 0 <= i < |ds| ==> qs[i] <= ds[i].cantidad)
    requires d < |ds|
    ensures Sum(Todas(ds, qs), DeDetalle(d)) == qs[d]
  {
    TodasPrefix(ds, qs, |ds|, d);
    assert Todas(ds, qs)[..|ds|] == Todas(ds, qs);
  }

  /** What a new note takes from line d, by reason. */
  function Toma(ds: seq<Detalle>, notas: seq<Nota>, m: Motivo, items: seq<Item>, d: nat): int
    requires d < |ds|
  {
    match m
    case M02 => ds[d].cantidad
    case M03 => 0
    case M06 => Disponible(ds, notas, d)
    case M07 => Sum(items, Pedido(d))
  }

  lemma CrearTakes(ds: seq<Detalle>, notas: seq<Nota>, m: Motivo, items: seq<Item>, d: nat)
    requires d < |ds| && Crear(ds, notas, m, items).Done?
    ensures Acreditado(Crear(ds, notas, m, items).state, d) == Acreditado(notas, d) + Toma(ds, notas, m, items, d)
  {
    var ls := BuildLines(ds, notas, m, items).state;
    SumSnoc(notas, Nota(m, pendiente_envio, ls), Aporte(d));
    match m {
      case M02 => TodasTakes(ds, Cantidades(ds), d);
      case M03 =>
      case M06 =>
        var all := Todas(ds, Disponibles(ds, notas));
        SumFilter(all, ConCantidad(), DeDetalle(d), DeDetalle(d));
        TodasTakes(ds, Disponibles(ds, notas), d);
      case M07 =>
        SumMatch(ls, items, DeDetalle(d), Pedido(d));
    }
  }

  // ---------------------------------------------------------------- never more than was sold

  ghost predicate Acotado(ds: seq<Detalle>, notas: seq<Nota>) {
    forall d :: 0 <= d < |ds| ==> 0 <= Acreditado(notas, d) <= ds[d].cantidad
  }

  ghost predicate Distintos(items: seq<Item>) {
    forall i, j :: 0 <= i < j < |items| ==> items[i].detalle != items[j].detalle
  }

  lemma {:induction false} DistinctItemsFit(ds: seq<Detalle>, notas: seq<Nota>, items: seq<Item>, d: nat)
    requires d < |ds| && ItemsOk(ds, notas, items) && Distintos(items)
    ensures Sum(items, Pedido(d)) <= Disponible(ds, notas, d)
    ensures (forall i :: 0 <= i < |items| ==> items[i].detalle != d) ==> Sum(items, Pedido(d)) == 0
  {
    if |items| == 0 {
    } else {
      var u, x := items[..|items| - 1], items[|items| - 1];
      assert forall i :: 0 <= i < |u| ==> ItemOk(ds, notas, u[i]) by {
        forall i | 0 <= i < |u| ensures ItemOk(ds, notas, u[i]) { assert ItemOk(ds, notas, items[i]); }
      }
      DistinctItemsFit(ds, notas, u, d);
      assert ItemOk(ds, notas, x);
    }
  }

  /** With the notes within what was sold, a note fits exactly when it takes no more than is available. */
  lemma NewNoteFitsIff(ds: seq<Detalle>, notas: seq<Nota>, m: Motivo, items: seq<Item>)
    requires Acotado(ds, notas) && Crear(ds, notas, m, items).Done?
    ensures Acotado(ds, Crear(ds, notas, m, items).state) <==>
              match m
              case M02 => forall d :: 0 <= d < |ds| ==> Acreditado(notas, d) == 0
              case M07 => forall d :: 0 <= d < |ds| ==> Sum(items, Pedido(d)) <= Disponible(ds, notas, d)
              case _ => true
  {
    var r := Crear(ds, notas, m, items).state;
    forall d | 0 <= d < |ds|
      ensures Acreditado(r, d) == Acreditado(notas, d) + Toma(ds, notas, m, items, d)
      ensures Disponible(ds, notas, d) == ds[d].cantidad - Acreditado(notas, d)
      ensures 0 <= Sum(items, Pedido(d))
    {
      CrearTakes(ds, notas, m, items, d);
      SumNonNegative(items, Pedido(d));
    }
  }

  datatype Evento = Emision(m: Motivo, items: seq<Item>) | CambioDeEstado(nota: nat, estado: SunatEstado)

  function Paso(ds: seq<Detalle>, notas: seq<Nota>, e: Evento): seq<Nota> {
    match e
    case Emision(m, items) => Crear(ds, notas, m, items).After(notas)
    case CambioDeEstado(n, s) => if n < |notas| then notas[n := notas[n].(estado := s)] else notas
  }

  function Correr(ds: seq<Detalle>, notas: seq<Nota>, es: seq<Evento>): seq<Nota> {
    if |es| == 0 then notas else Paso(ds, Correr(ds, notas, es[..|es| - 1]), es[|es| - 1])
  }

  lemma TomadoNonNegative(n: Nota, d: nat)
    ensures Tomado(n, d) >= 0
  {
    SumNonNegative(n.lineas, DeDetalle(d));
  }

  lemma CambioMoves(notas: seq<Nota>, n: nat, s: SunatEstado, d: nat)
    requires n < |notas|
    ensures Acreditado(notas[n := notas[n].(estado := s)], d)
            == Acreditado(notas, d) - Aporte(d)(notas[n]) + Aporte(d)(notas[n].(estado := s))
    ensures 0 <= Aporte(d)(notas[n]) <= Acreditado(notas, d)
  {
    SumReplace(notas, n, notas[n].(estado := s), Aporte(d));
    forall i | 0 <= i < |notas| ensures Aporte(d)(notas[i]) >= 0 { TomadoNonNegative(notas[i], d); }
    SumNonNegative(notas, Aporte(d));
  }

  /** What each event needs so that no line is credited beyond what was sold. */
  ghost predicate Cabe(ds: seq<Detalle>, notas: seq<Nota>, e: Evento) {
    match e
    case Emision(m, items) =>
      Crear(ds, notas, m, items).Done? ==>
        && (m == M02 ==> forall d :: 0 <= d < |ds| ==> Acreditado(notas, d) == 0)
        && (m == M07 ==> forall d :: 0 <= d < |ds| ==> Sum(items, Pedido(d)) <= Disponible(ds, notas, d))
    case CambioDeEstado(n, s) =>
      n < |notas| && Activa(s) && !Activa(notas[n].estado) && notas[n].motivo != M03 ==>
        forall d :: 0 <= d < |ds| ==> Tomado(notas[n], d) <= Disponible(ds, notas, d)
  }

  lemma CambioFitsIff(ds: seq<Detalle>, notas: seq<Nota>, n: nat, s: SunatEstado)
    requires Acotado(ds, notas) && n < |notas|
    ensures Acotado(ds, notas[n := notas[n].(estado := s)]) <==> Cabe(ds, notas, CambioDeEstado(n, s))
  {
    var r := notas[n := notas[n].(estado := s)];
    forall d | 0 <= d < |ds|
      ensures Acreditado(r, d) == Acreditado(notas, d) - Aporte(d)(notas[n]) + Aporte(d)(notas[n].(estado := s))
      ensures 0 <= Aporte(d)(notas[n]) <= Acreditado(notas, d) && Tomado(notas[n], d) >= 0
      ensures Disponible(ds, notas, d) == ds[d].cantidad - Acreditado(notas, d)
    {
      CambioMoves(notas, n, s, d);
      TomadoNonNegative(notas[n], d);
    }
  }

  lemma PasoFitsIff(ds: seq<Detalle>, notas: seq<Nota>, e: Evento)
    requires Acotado(ds, notas)
    ensures Acotado(ds, Paso(ds, notas, e)) <==> Cabe(ds, notas, e)
  {
    hide Acotado, Disponible, Acreditado;
    match e {
      case Emision(m, items) => if Crear(ds, notas, m, items).Done? { NewNoteFitsIff(ds, notas, m, items); }
      case CambioDeEstado(n, s) => if n < |notas| { CambioFitsIff(ds, notas, n, s); }
    }
  }

  /** Within what was sold after every event of the run. */
  ghost predicate SiempreAcotado(ds: seq<Detalle>, notas: seq<Nota>, es: seq<Evento>) {
    Acotado(ds, Correr(ds, notas, es)) && (|es| > 0 ==> SiempreAcotado(ds, notas, es[..|es| - 1]))
  }

  /** Every event of the run fits where it falls. */
  ghost predicate Caben(ds: seq<Detalle>, notas: seq<Nota>, es: seq<Evento>) {
    |es| == 0 || (Caben(ds, notas, es[..|es| - 1]) && Cabe(ds, Correr(ds, notas, es[..|es| - 1]), es[|es| - 1]))
  }

  /** Over any run the notes stay within what was sold exactly while every event fits where it falls. */
  lemma {:induction false} NeverOverCreditedIff(ds: seq<Detalle>, notas: seq<Nota>, es: seq<Evento>)
    requires Acotado(ds, notas)
    ensures SiempreAcotado(ds, notas, es) <==> Caben(ds, notas, es)
  {
    hide Acotado, Cabe, Paso;
    if |es| == 0 {
    } else {
      var u := es[..|es| - 1];
      NeverOverCreditedIff(ds, notas, u);
      if SiempreAcotado(ds, notas, u) { PasoFitsIff(ds, Correr(ds, notas, u), es[|es| - 1]); }
    }
  }

  /** Distinct items, reason 02 only on an untouched sale, and no failed note made active again. */
  ghost predicate Sano(ds: seq<Detalle>, notas: seq<Nota>, e: Evento) {
    match e
    case Emision(m, items) =>
      && (m == M07 ==> Distintos(items))
      && (m == M02 ==> forall d :: 0 <= d < |ds| ==> Acreditado(notas, d) == 0)
    case CambioDeEstado(n, s) => n < |notas| && Activa(s) ==> Activa(notas[n].estado)
  }

  ghost predicate Sanos(ds: seq<Detalle>, notas: seq<Nota>, es: seq<Evento>) {
    |es| == 0 || (Sanos(ds, notas, es[..|es| - 1]) && Sano(ds, Correr(ds, notas, es[..|es| - 1]), es[|es| - 1]))
  }

  lemma PasoKeepsAcotado(ds: seq<Detalle>, notas: seq<Nota>, e: Evento)
    requires Acotado(ds, notas) && Sano(ds, notas, e)
    ensures Acotado(ds, Paso(ds, notas, e))
  {
    hide Acotado, Disponible, Acreditado;
    if e.Emision? && Crear(ds, notas, e.m, e.items).Done? && e.m == M07 {
      forall d | 0 <= d < |ds| ensures Sum(e.items, Pedido(d)) <= Disponible(ds, notas, d) {
        DistinctItemsFit(ds, notas, e.items, d);
      }
    }
    PasoFitsIff(ds, notas, e);
  }

  /** Over any such run the active notes never credit more of a line than was sold. */
  lemma {:induction false} NeverOverCredited(ds: seq<Detalle>, es: seq<Evento>, d: nat)
    requires Sanos(ds, [], es) && d < |ds|
    ensures var r := Correr(ds, [], es);
            && 0 <= Acreditado(r, d) <= ds[d].cantidad
            && Acreditado(r, d) + Disponible(ds, r, d) == ds[d].cantidad
  {
    RunKeepsAcotado(ds, [], es);
  }

  lemma {:induction false} RunKeepsAcotado(ds: seq<Detalle>, notas: seq<Nota>, es: seq<Evento>)
    requires Acotado(ds, notas) && Sanos(ds, notas, es)
    ensures Acotado(ds, Correr(ds, notas, es))
  {
    if |es| == 0 {
    } else {
      RunKeepsAcotado(ds, notas, es[..|es| - 1]);
      PasoKeepsAcotado(ds, Correr(ds, notas, es[..|es| - 1]), es[|es| - 1]);
    }
  }

  /** A note that is rejected or fails for good gives back exactly what it took, on every line. */
  lemma RejectionGivesBack(ds: seq<Detalle>, notas: seq<Nota>, n: nat, s: SunatEstado, d: nat)
    requires Acotado(ds, notas) && d < |ds| && n < |notas| && Descuenta(notas[n]) && !Activa(s)
    ensures Disponible(ds, Paso(ds, notas, CambioDeEstado(n, s)), d) == Disponible(ds, notas, d) + Tomado(notas[n], d)
  {
    CambioMoves(notas, n, s, d);
  }

  /**
   Retrying a failed note makes it active again: the notes stay within what was sold exactly when
   nothing issued meanwhile has used what it takes back.
   */
  lemma ReactivationFitsIff(ds: seq<Detalle>, notas: seq<Nota>, n: nat)
    requires Acotado(ds, notas) && n < |notas| && !Activa(notas[n].estado) && notas[n].motivo != M03
    ensures Acotado(ds, Paso(ds, notas, CambioDeEstado(n, pendiente_envio))) <==>
              forall d :: 0 <= d < |ds| ==> Tomado(notas[n], d) <= Disponible(ds, notas, d)
  {
    var r := Paso(ds, notas, CambioDeEstado(n, pendiente_envio));
    forall d | 0 <= d < |ds|
      ensures Acreditado(r, d) == Acreditado(notas, d) + Tomado(notas[n], d)
      ensures Disponible(ds, notas, d) == ds[d].cantidad - Acreditado(notas, d)
      ensures Tomado(notas[n], d) >= 0
    {
      CambioMoves(notas, n, pendiente_envio, d);
      TomadoNonNegative(notas[n], d);
    }
  }

  /** A total return leaves nothing available on any line, so no further return is accepted. */
  lemma TotalReturnLeavesNothing(ds: seq<Detalle>, notas: seq<Nota>, items: seq<Item>)
    requires Acotado(ds, notas) && Crear(ds, notas, M06, []).Done?
    ensures var r := Crear(ds, notas, M06, []).state;
            && (forall d :: 0 <= d < |ds| ==> Disponible(ds, r, d) == 0)
            && Crear(ds, r, M06, []).Refused?
            && ((exists i :: 0 <= i < |items| && items[i].cantidad >= 1) ==> Crear(ds, r, M07, items).Refused?)
  {
    var r := Crear(ds, notas, M06, []).state;
    forall d | 0 <= d < |ds| ensures Disponible(ds, r, d) == 0 {
      CrearTakes(ds, notas, M06, [], d);
    }
    var all := Todas(ds, Disponibles(ds, r));
    forall k | 0 <= k < |all| ensures all[k].cantidad == 0 {
      assert Disponibles(ds, r)[k] == 0;
    }
    FilterNothing(all, ConCantidad());
    if i :| 0 <= i < |items| && items[i].cantidad >= 1 {
      assert !ItemOk(ds, r, items[i]);
    }
  }

  /**
   Availability is read before the transaction that writes the note. Two requests, of any reasons and
   items, that read before either writes are both accepted; together they stay within what was sold
   exactly when on every line what both take fits at once.
   */
  lemma ConcurrentReturnsFitIff(ds: seq<Detalle>, notas: seq<Nota>, m: Motivo, items: seq<Item>, m': Motivo, items': seq<Item>)
    requires Acotado(ds, notas) && Crear(ds, notas, m, items).Done? && Crear(ds, notas, m', items').Done?
    ensures var x := Crear(ds, notas, m, items).state;
            var y := Nota(m', pendiente_envio, BuildLines(ds, notas, m', items').state);
            Acotado(ds, x + [y]) <==>
              forall d :: 0 <= d < |ds| ==> Toma(ds, notas, m, items, d) + Toma(ds, notas, m', items', d) <= Disponible(ds, notas, d)
  {
    hide BuildLines, Sum;
    var x := Crear(ds, notas, m, items).state;
    var y := Nota(m', pendiente_envio, BuildLines(ds, notas, m', items').state);
    forall d | 0 <= d < |ds|
      ensures Acreditado(x + [y], d) == Acreditado(notas, d) + Toma(ds, notas, m, items, d) + Toma(ds, notas, m', items', d)
      ensures Disponible(ds, notas, d) == ds[d].cantidad - Acreditado(notas, d)
      ensures Toma(ds, notas, m, items, d) >= 0 && Toma(ds, notas, m', items', d) >= 0
    {
      CrearTakes(ds, notas, m, items, d);
      CrearTakes(ds, notas, m', items', d);
      SumSnoc(x, y, Aporte(d));
      SumSnoc(notas, y, Aporte(d));
      SumNonNegative(items, Pedido(d));
      SumNonNegative(items', Pedido(d));
    }
  }

  // ---------------------------------------------------------------- header totals

  function Columnas(ls: seq<Linea>): (r: seq<Importe>)
    ensures |r| == |ls|
  {
    seq(|ls|, i requires 0 <= i < |ls| => Importe(ls[i].afectacion, ls[i].valor, ls[i].igv, ls[i].total))
  }

  ghost predicate VentaCuadra(ds: seq<Detalle>) {
    forall d :: 0 <= d < |ds| ==> ds[d].valor + ds[d].igv == ds[d].total
  }

  lemma LinesComeFromSale(ds: seq<Detalle>, notas: seq<Nota>, m: Motivo, items: seq<Item>, i: nat)
    requires BuildLines(ds, notas, m, items).Done? && i < |BuildLines(ds, notas, m, items).state|
    ensures exists d: nat, q: nat {:trigger LineFromSaleDetail(d, ds[d], q)} :: d < |ds| && q <= ds[d].cantidad
              && BuildLines(ds, notas, m, items).state[i] == LineFromSaleDetail(d, ds[d], q)
    ensures m == M02 || m == M03 ==>
              i < |ds| && BuildLines(ds, notas, m, items).state[i] == LineFromSaleDetail(i, ds[i], ds[i].cantidad)
  {
    var ls := BuildLines(ds, notas, m, items).state;
    match m {
      case M02 => assert ls[i] == LineFromSaleDetail(i, ds[i], Cantidades(ds)[i]);
      case M03 => assert ls[i] == LineFromSaleDetail(i, ds[i], Cantidades(ds)[i]);
      case M06 =>
        var all := Todas(ds, Disponibles(ds, notas));
        FilterMembers(all, ConCantidad());
        var k :| 0 <= k < |all| && all[k] == ls[i];
        assert ls[i] == LineFromSaleDetail(k, ds[k], Disponibles(ds, notas)[k]);
      case M07 =>
        assert ItemOk(ds, notas, items[i]);
        assert ls[i] == LineFromSaleDetail(items[i].detalle, ds[items[i].detalle], items[i].cantidad);
    }
  }

  lemma LineIsBalanced(ds: seq<Detalle>, notas: seq<Nota>, m: Motivo, items: seq<Item>, i: nat)
    requires VentaCuadra(ds) && BuildLines(ds, notas, m, items).Done? && i < |BuildLines(ds, notas, m, items).state|
    ensures var l := BuildLines(ds, notas, m, items).state[i];
            && -1 <= l.valor + l.igv - l.total <= 1
            && (m == M02 || m == M03 ==> l.valor + l.igv == l.total)
  {
    hide BuildLines, Prorrata;
    LinesComeFromSale(ds, notas, m, items, i);
    var l := BuildLines(ds, notas, m, items).state[i];
    var d: nat, q: nat :| d < |ds| && q <= ds[d].cantidad && l == LineFromSaleDetail(d, ds[d], q);
    LineWithinOneCent(d, ds[d], q);
    if (m == M02 || m == M03) && ds[i].cantidad > 0 {
      FullQuantityIsExact(i, ds[i]);
    }
  }

  /**
   On a sale whose lines add up, the header of every accepted note falls short of its total by the
   value of the lines of other affectations, within a cent per line, and exactly on a documental note.
   */
  lemma HeaderWithinOneCentPerLine(ds: seq<Detalle>, notas: seq<Nota>, m: Motivo, items: seq<Item>)
    requires VentaCuadra(ds) && BuildLines(ds, notas, m, items).Done?
    ensures var xs := Columnas(BuildLines(ds, notas, m, items).state);
            && -(|xs| as int) <= Descuadre(SumLines(xs)) + Sum(xs, ValorSi(OtraAfectacion)) <= |xs|
            && (m == M02 || m == M03 ==> Descuadre(SumLines(xs)) == -Sum(xs, ValorSi(OtraAfectacion)))
  {
    hide BuildLines, SumLines, Sum;
    var ls := BuildLines(ds, notas, m, items).state;
    var xs := Columnas(ls);
    var f := (x: Importe) => x.valor + x.igv - x.total;
    forall i | 0 <= i < |ls|
      ensures -1 <= f(xs[i]) <= 1
      ensures m == M02 || m == M03 ==> f(xs[i]) == 0
      ensures f(xs[i]) == DescuadreDe()(xs[i]) + ValorSi(OtraAfectacion)(xs[i])
    {
      LineIsBalanced(ds, notas, m, items, i);
    }
    DescuadreIsSum(xs);
    SumSplit(xs, f, DescuadreDe(), ValorSi(OtraAfectacion));
    WithinOneEach(xs, f);
    if m == M02 || m == M03 {
      SumZero(xs, f);
    }
  }

  // ---------------------------------------------------------------- create as written

  class CreditNoteTables {
    const detalles: seq<Detalle>
    var notas: seq<Nota>

    constructor (ds: seq<Detalle>)
      ensures detalles == ds && notas == [] && Acotado(ds, notas)
    {
      detalles, notas := ds, [];
    }

    /** A note issued on its own keeps the sale within bounds, unless it repeats a line or is a late 02. */
    method Create(m: Motivo, items: seq<Item>) returns (error: Option<ApiError>)
      requires Acotado(detalles, notas)
      modifies this
      ensures notas == Crear(detalles, old(notas), m, items).After(old(notas))
      ensures error.None? <==> Crear(detalles, old(notas), m, items).Done?
      ensures Sano(detalles, old(notas), Emision(m, items)) ==> Acotado(detalles, notas)
    {
      ghost var before := notas;
      var lines := BuildLines(detalles, notas, m, items);
      if lines.Refused? { return Some(lines.error); }
      notas := notas + [Nota(m, pendiente_envio, lines.state)];
      if Sano(detalles, before, Emision(m, items)) {
        PasoKeepsAcotado(detalles, before, Emision(m, items));
      }
      error := None;
    }
  }
}
