/**
 The money on credit notes: which requests are accepted, what every line of an accepted note carries
 of its sale line, and what the active notes of a sale add up to over any run.
 */
module CreditedAmounts {
  import opened Sums
  import opened Wrappers
  import opened Rounding
  import opened CreditNotes

  // ---------------------------------------------------------------- one note

  /** Documental reasons and the total return take no items; a partial one needs some, each within what is available. */
  lemma NoteIff(ds: seq<Detalle>, notas: seq<Nota>, m: Motivo, items: seq<Item>)
    ensures var o := Crear(ds, notas, m, items);
            && (o.Refused? ==> o.error == BadRequest)
            && (o.Done? <==>
                  match m
                  case M02 => items == []
                  case M03 => items == []
                  case M06 => items == [] && exists d :: 0 <= d < |ds| && Disponible(ds, notas, d) > 0
                  case M07 =>
                    items != [] && forall i :: 0 <= i < |items| ==>
                      items[i].detalle < |ds| && items[i].cantidad <= Disponible(ds, notas, items[i].detalle))
            && (o.Done? ==>
                  && |o.state| == |notas| + 1 && notas <= o.state
                  && o.state[|notas|].motivo == m && o.state[|notas|].estado == pendiente_envio)
  {
    hide Disponible;
    match m {
      case M02 =>
      case M03 =>
      case M06 => SomethingLeft(ds, notas);
      case M07 =>
        if Crear(ds, notas, m, items).Done? { assert forall i :: 0 <= i < |items| ==> ItemOk(ds, notas, items[i]); }
    }
  }

  lemma SomethingLeft(ds: seq<Detalle>, notas: seq<Nota>)
    ensures Filter(Todas(ds, Disponibles(ds, notas)), ConCantidad()) != [] <==>
              exists d :: 0 <= d < |ds| && Disponible(ds, notas, d) > 0
  {
    var all := Todas(ds, Disponibles(ds, notas));
    FilterMembers(all, ConCantidad());
    if d :| 0 <= d < |ds| && Disponible(ds, notas, d) > 0 {
      assert ConCantidad()(all[d]);
    } else {
      FilterNothing(all, ConCantidad());
    }
  }

  datatype Columna = Descuento | Valor | Igv | Subtotal | Total

  function DeVenta(c: Columna, d: Detalle): nat {
    match c
    case Descuento => d.descuento
    case Valor => d.valor
    case Igv => d.igv
    case Subtotal => d.subtotal
    case Total => d.total
  }

  function EnNota(c: Columna, l: Linea): nat {
    match c
    case Descuento => l.descuento
    case Valor => l.valor
    case Igv => l.igv
    case Subtotal => l.subtotal
    case Total => l.total
  }

  /** r is the nearest cent to x * q / n, the upper one at a half; nothing for no quantity. */
  predicate EsParte(r: nat, x: nat, q: nat, n: nat) {
    if q == 0 then r == 0 else -(n as int) < 2 * n * r - 2 * (x * q) <= n
  }

  /** The line credits its sale line: the affectation, a quantity that was sold, and the part of each amount. */
  ghost predicate LineaOk(ds: seq<Detalle>, l: Linea) {
    && l.detalle < |ds|
    && l.cantidad <= ds[l.detalle].cantidad && l.afectacion == ds[l.detalle].afectacion
    && forall c: Columna :: EsParte(EnNota(c, l), DeVenta(c, ds[l.detalle]), l.cantidad, ds[l.detalle].cantidad)
  }

  lemma LineIsPart(i: nat, ds: seq<Detalle>, q: nat)
    requires i < |ds| && q <= ds[i].cantidad
    ensures LineaOk(ds, LineFromSaleDetail(i, ds[i], q)) && LineFromSaleDetail(i, ds[i], q).cantidad == q
    ensures LineFromSaleDetail(i, ds[i], q).detalle == i
  {
    hide HalfUp;
    if q > 0 {
      forall c: Columna
        ensures EsParte(EnNota(c, LineFromSaleDetail(i, ds[i], q)), DeVenta(c, ds[i]), q, ds[i].cantidad)
      {
        HalfUpIsNearest(DeVenta(c, ds[i]) * q, ds[i].cantidad);
      }
    }
  }

  /**
   Every line of an accepted note carries its sale line's affectation, a quantity, and of each of the
   five amounts the nearest cent to amount times quantity over quantity sold. A partial return has one
   line an item; the documental ones every sale line whole.
   */
  lemma LineAmounts(ds: seq<Detalle>, notas: seq<Nota>, m: Motivo, items: seq<Item>)
    requires BuildLines(ds, notas, m, items).Done?
    ensures var ls := BuildLines(ds, notas, m, items).state;
            && (forall i :: 0 <= i < |ls| ==> LineaOk(ds, ls[i]))
            && (m == M07 ==> |ls| == |items| && forall i :: 0 <= i < |ls| ==> Item(ls[i].detalle, ls[i].cantidad) == items[i])
            && (m == M06 ==> forall i :: 0 <= i < |ls| ==> 0 < ls[i].cantidad == Disponible(ds, notas, ls[i].detalle))
            && (m == M02 || m == M03 ==>
                  |ls| == |ds| && forall i :: 0 <= i < |ls| ==> ls[i].detalle == i && ls[i].cantidad == ds[i].cantidad)
  {
    hide LineFromSaleDetail, Disponible, LineaOk;
    var ls := BuildLines(ds, notas, m, items).state;
    match m {
      case M02 => WholeLines(ds, Cantidades(ds));
      case M03 => WholeLines(ds, Cantidades(ds));
      case M06 =>
        var all := Todas(ds, Disponibles(ds, notas));
        WholeLines(ds, Disponibles(ds, notas));
        FilterMembers(all, ConCantidad());
        forall i | 0 <= i < |ls|
          ensures LineaOk(ds, ls[i]) && ls[i].detalle < |ds| && 0 < ls[i].cantidad == Disponible(ds, notas, ls[i].detalle)
        {
          var k :| 0 <= k < |all| && all[k] == ls[i];
        }
      case M07 =>
        forall i | 0 <= i < |ls| ensures LineaOk(ds, ls[i]) && Item(ls[i].detalle, ls[i].cantidad) == items[i] {
          assert ItemOk(ds, notas, items[i]);
          DisponibleBounded(ds, notas, items[i].detalle);
          LineIsPart(items[i].detalle, ds, items[i].cantidad);
        }
    }
  }

  lemma WholeLines(ds: seq<Detalle>, qs: seq<nat>)
    requires |qs| == |ds| && forall i :: 0 <= i < |ds| ==> qs[i] <= ds[i].cantidad
    ensures forall i :: 0 <= i < |ds| ==>
              var l := Todas(ds, qs)[i]; LineaOk(ds, l) && l.detalle == i && l.cantidad == qs[i]
  {
    forall i | 0 <= i < |ds| ensures var l := Todas(ds, qs)[i]; LineaOk(ds, l) && l.detalle == i && l.cantidad == qs[i] {
      LineIsPart(i, ds, qs[i]);
    }
  }

  lemma DisponibleBounded(ds: seq<Detalle>, notas: seq<Nota>, d: nat)
    requires d < |ds|
    ensures Disponible(ds, notas, d) <= ds[d].cantidad
  {
  }

  /**
   Which notes count: setting the status of note n decides whether its quantities do. They do not once
   it is rejected, has failed for good or needs no emission, nor ever under reason 03; under any other
   status they do.
   */
  lemma StatusDecides(ds: seq<Detalle>, notas: seq<Nota>, n: nat, s: SunatEstado, d: nat)
    requires n < |notas|
    ensures Acreditado(Paso(ds, notas, CambioDeEstado(n, s)), d)
            == Acreditado(Paso(ds, notas, CambioDeEstado(n, rechazado)), d)
               + if s in {rechazado, error_definitivo, no_aplica} || notas[n].motivo == M03 then 0 else Tomado(notas[n], d)
    ensures var r := Paso(ds, notas, CambioDeEstado(n, s));
            && |r| == |notas| && r[n] == Nota(notas[n].motivo, s, notas[n].lineas)
            && forall i :: 0 <= i < |notas| && i != n ==> r[i] == notas[i]
  {
    CambioMoves(notas, n, s, d);
    CambioMoves(notas, n, rechazado, d);
  }

  // ---------------------------------------------------------------- all the notes of a sale

  ghost predicate NotaOk(ds: seq<Detalle>, n: Nota) { forall i :: 0 <= i < |n.lineas| ==> LineaOk(ds, n.lineas[i]) }

  ghost predicate NotasOk(ds: seq<Detalle>, notas: seq<Nota>) { forall i :: 0 <= i < |notas| ==> NotaOk(ds, notas[i]) }

  lemma {:induction false} RunKeepsNotas(ds: seq<Detalle>, es: seq<Evento>)
    ensures NotasOk(ds, Correr(ds, [], es))
  {
    hide LineaOk, BuildLines;
    if |es| == 0 {
    } else {
      var notas, e := Correr(ds, [], es[..|es| - 1]), es[|es| - 1];
      RunKeepsNotas(ds, es[..|es| - 1]);
      if e.Emision? && Crear(ds, notas, e.m, e.items).Done? { LineAmounts(ds, notas, e.m, e.items); }
    }
  }

  function DeLinea(c: Columna, d: nat): Linea -> int { (l: Linea) => if l.detalle == d then EnNota(c, l) else 0 }

  function Una(d: nat): Linea -> int { (l: Linea) => if l.detalle == d then 1 else 0 }

  function ColumnaDe(c: Columna, d: nat): Nota -> int { (n: Nota) => if Descuenta(n) then Sum(n.lineas, DeLinea(c, d)) else 0 }

  function LineasDe(d: nat): Nota -> int { (n: Nota) => if Descuenta(n) then Sum(n.lineas, Una(d)) else 0 }

  /** The rounding errors of k lines: s cents credited for a units of n, of an amount x. */
  predicate Cerca(x: nat, n: nat, s: int, a: int, k: int) {
    -(n * k) <= 2 * n * s - 2 * x * a <= n * k
  }

  lemma CercaAdds(x: nat, n: nat, s: int, a: int, k: int, s': int, a': int, k': int)
    requires Cerca(x, n, s, a, k) && Cerca(x, n, s', a', k')
    ensures Cerca(x, n, s + s', a + a', k + k')
  {
    assert n * (k + k') == n * k + n * k';
    assert 2 * n * (s + s') == 2 * n * s + 2 * n * s';
    assert 2 * x * (a + a') == 2 * x * a + 2 * x * a';
  }

  lemma ParteCerca(r: nat, x: nat, q: nat, n: nat)
    requires EsParte(r, x, q, n)
    ensures Cerca(x, n, r, q, 1)
  {
    assert 2 * x * q == 2 * (x * q);
  }

  lemma {:induction false} LinesNear(ds: seq<Detalle>, ls: seq<Linea>, c: Columna, d: nat)
    requires d < |ds| && forall i :: 0 <= i < |ls| ==> LineaOk(ds, ls[i])
    ensures Cerca(DeVenta(c, ds[d]), ds[d].cantidad, Sum(ls, DeLinea(c, d)), Sum(ls, DeDetalle(d)), Sum(ls, Una(d)))
  {
    hide Cerca;
    var x, n := DeVenta(c, ds[d]), ds[d].cantidad;
    if |ls| == 0 {
      NothingIsNear(x, n);
    } else {
      var u, l := ls[..|ls| - 1], ls[|ls| - 1];
      LinesNear(ds, u, c, d);
      if l.detalle == d {
        assert LineaOk(ds, l);
        ParteCerca(EnNota(c, l), x, l.cantidad, n);
        CercaAdds(x, n, Sum(u, DeLinea(c, d)), Sum(u, DeDetalle(d)), Sum(u, Una(d)), EnNota(c, l), l.cantidad, 1);
      }
    }
  }

  lemma NothingIsNear(x: nat, n: nat)
    ensures Cerca(x, n, 0, 0, 0)
  {
  }

  lemma {:induction false} NotesNear(ds: seq<Detalle>, notas: seq<Nota>, c: Columna, d: nat)
    requires d < |ds| && NotasOk(ds, notas)
    ensures Cerca(DeVenta(c, ds[d]), ds[d].cantidad, Sum(notas, ColumnaDe(c, d)), Acreditado(notas, d), Sum(notas, LineasDe(d)))
  {
    hide Cerca, LineaOk;
    var x, n := DeVenta(c, ds[d]), ds[d].cantidad;
    NothingIsNear(x, n);
    if |notas| == 0 {
    } else {
      var u, y := notas[..|notas| - 1], notas[|notas| - 1];
      NotesNear(ds, u, c, d);
      assert NotaOk(ds, y);
      LinesNear(ds, y.lineas, c, d);
      CercaAdds(x, n, Sum(u, ColumnaDe(c, d)), Acreditado(u, d), Sum(u, LineasDe(d)),
                ColumnaDe(c, d)(y), Aporte(d)(y), LineasDe(d)(y));
    }
  }

  /**
   Over any run of notes and status changes: for each column of each sale line, what the active notes
   credit is the amount's part for the quantity they credit, to half a cent per note line; so once they
   have credited all of the line, they differ from its amount by half a cent per note line at most.
   */
  lemma CreditedFollowsQuantity(ds: seq<Detalle>, es: seq<Evento>, c: Columna, d: nat)
    requires d < |ds|
    ensures var notas := Correr(ds, [], es);
            var x, n := DeVenta(c, ds[d]), ds[d].cantidad;
            var s, a, k := Sum(notas, ColumnaDe(c, d)), Acreditado(notas, d), Sum(notas, LineasDe(d));
            && -(n * k) <= 2 * n * s - 2 * x * a <= n * k
            && (n > 0 && a == n ==> -k <= 2 * (s - x) <= k)
  {
    hide Correr, Sum, Acreditado;
    var notas := Correr(ds, [], es);
    var x, n := DeVenta(c, ds[d]), ds[d].cantidad;
    var s, k := Sum(notas, ColumnaDe(c, d)), Sum(notas, LineasDe(d));
    RunKeepsNotas(ds, es);
    NotesNear(ds, notas, c, d);
    CountIsNatural(notas, d);
    if n > 0 && Acreditado(notas, d) == n { HalvesOfWhole(x, n, s, k); }
  }

  lemma CountIsNatural(notas: seq<Nota>, d: nat)
    ensures Sum(notas, LineasDe(d)) >= 0
  {
    forall i | 0 <= i < |notas| ensures LineasDe(d)(notas[i]) >= 0 { SumNonNegative(notas[i].lineas, Una(d)); }
    SumNonNegative(notas, LineasDe(d));
  }
}
