/**
 The lines of a debit note: each adjusted amount split into value and tax, and the header they add
 up to. A requested amount is its sign and the cents left after rounding it to two decimals; a
 request below zero that rounds to nothing keeps its sign.
 */
module DebitNotes {
  import opened Sums
  import opened Wrappers
  import opened Rounding
  import opened FiscalTotals

  datatype Ajuste = Ajuste(detalle: nat, negativo: bool, importe: nat)

  /** create: what is checked of the adjustments; `ds` are the affectations of the sale's lines. */
  function BuildLines(ds: seq<Afectacion>, ajustes: seq<Ajuste>): Outcome<seq<Importe>> {
    if |ajustes| == 0 then Refused(BadRequest)
    else if !Distintos(ajustes) then Refused(BadRequest)
    else if exists i :: 0 <= i < |ajustes| && !AjusteOk(ds, ajustes[i]) then Refused(BadRequest)
    else Done(seq(|ajustes|, i requires 0 <= i < |ajustes| =>
                assert AjusteOk(ds, ajustes[i]);
                Partir(ds[ajustes[i].detalle], ajustes[i].importe)))
  }

  predicate Distintos(ajustes: seq<Ajuste>) {
    forall i, j :: 0 <= i < j < |ajustes| ==> ajustes[i].detalle != ajustes[j].detalle
  }

  /** The check asks for a positive sign, which a plain zero has. */
  predicate AjusteOk(ds: seq<Afectacion>, a: Ajuste) { a.detalle < |ds| && !a.negativo }

  /** A taxed amount includes the 18% tax; any other amount is all value. */
  function Partir(a: Afectacion, importe: nat): Importe {
    var valor := if a == Gravada then HalfUp(importe * 100, 118) else importe;
    Importe(a, valor, importe - valor, importe)
  }

  /**
   The value is the amount without tax to the nearest cent, halves up; the tax is what is left, and
   is itself within half a cent of 18% of the exact value.
   */
  lemma SplitIsExact(a: Afectacion, importe: nat)
    ensures var x := Partir(a, importe);
            && x.valor + x.igv == importe == x.total
            && 0 <= x.valor <= importe
            && (a == Gravada ==> -118 < 236 * x.valor - 200 * importe <= 118)
            && (a == Gravada ==> -118 <= 236 * x.igv - 36 * importe < 118)
            && (a != Gravada ==> x.igv == 0)
  {
    HalfUpIsNearest(importe * 100, 118);
  }

  /**
   An accepted note has one line for each adjustment, of the affectation of the sale line it adjusts and
   for exactly its amount, split as above; the header's total is what was asked for.
   */
  lemma LinesCarryAdjustments(ds: seq<Afectacion>, ajustes: seq<Ajuste>)
    requires BuildLines(ds, ajustes).Done?
    ensures var xs := BuildLines(ds, ajustes).state;
            && |xs| == |ajustes|
            && (forall i :: 0 <= i < |xs| ==>
                  && ajustes[i].detalle < |ds| && xs[i].afectacion == ds[ajustes[i].detalle]
                  && xs[i].total == xs[i].valor + xs[i].igv == ajustes[i].importe
                  && (xs[i].afectacion != Gravada ==> xs[i].igv == 0)
                  && (xs[i].afectacion == Gravada ==> -118 < 236 * xs[i].valor - 200 * ajustes[i].importe <= 118))
            && SumLines(xs).total == Sum(ajustes, (a: Ajuste) => a.importe)
  {
    hide HalfUp;
    var xs := BuildLines(ds, ajustes).state;
    forall i | 0 <= i < |xs|
      ensures ajustes[i].detalle < |ds| && xs[i] == Partir(ds[ajustes[i].detalle], ajustes[i].importe)
      ensures xs[i].total == xs[i].valor + xs[i].igv == ajustes[i].importe
      ensures xs[i].afectacion != Gravada ==> xs[i].igv == 0
      ensures xs[i].afectacion == Gravada ==> -118 < 236 * xs[i].valor - 200 * ajustes[i].importe <= 118
    {
      assert AjusteOk(ds, ajustes[i]);
      SplitIsExact(ds[ajustes[i].detalle], ajustes[i].importe);
    }
    SumMatch(xs, ajustes, Total(), (a: Ajuste) => a.importe);
  }

  function Otros(): Importe -> int { (x: Importe) => if x.afectacion == OtraAfectacion then x.total else 0 }

  /**
   The header parts fall short of the total by exactly the amounts adjusted on lines of no listed
   affectation; so they add up exactly when every such line is adjusted by nothing.
   */
  lemma HeaderAddsUpIff(ds: seq<Afectacion>, ajustes: seq<Ajuste>)
    requires BuildLines(ds, ajustes).Done?
    ensures var xs := BuildLines(ds, ajustes).state;
            && Descuadre(SumLines(xs)) == -Sum(xs, Otros())
            && (Descuadre(SumLines(xs)) == 0 <==>
                  forall i :: 0 <= i < |xs| && xs[i].afectacion == OtraAfectacion ==> xs[i].total == 0)
  {
    var xs := BuildLines(ds, ajustes).state;
    DescuadreIsSum(xs);
    forall i | 0 <= i < |xs| ensures DescuadreDe()(xs[i]) == -Otros()(xs[i]) && Otros()(xs[i]) >= 0 {
      assert AjusteOk(ds, ajustes[i]);
      SplitIsExact(ds[ajustes[i].detalle], ajustes[i].importe);
    }
    var neg := (x: Importe) => -Otros()(x);
    SumMatch(xs, xs, DescuadreDe(), neg);
    SumSplit(xs, x => 0, Otros(), neg);
    SumZero(xs, x => 0);
    SumNonNegative(xs, Otros());
    if forall i :: 0 <= i < |xs| && xs[i].afectacion == OtraAfectacion ==> xs[i].total == 0 {
      SumZero(xs, Otros());
    }
  }

  /**
   Although the error says the amount must be above zero, a note is accepted exactly when it adjusts
   at least one line, distinct lines of the sale, and no amount has a minus sign; one of zeros only
   is accepted and has total zero.
   */
  lemma ZeroAmountsAreAccepted(ds: seq<Afectacion>, ajustes: seq<Ajuste>)
    ensures BuildLines(ds, ajustes).Done? <==>
              |ajustes| > 0
              && (forall i, j :: 0 <= i < |ajustes| && 0 <= j < |ajustes| && ajustes[i].detalle == ajustes[j].detalle ==> i == j)
              && forall i :: 0 <= i < |ajustes| ==> ajustes[i].detalle < |ds| && !ajustes[i].negativo
    ensures BuildLines(ds, ajustes).Refused? ==> BuildLines(ds, ajustes).error == BadRequest
    ensures (BuildLines(ds, ajustes).Done? && forall i :: 0 <= i < |ajustes| ==> ajustes[i].importe == 0) ==>
              SumLines(BuildLines(ds, ajustes).state).total == 0
  {
    if BuildLines(ds, ajustes).Done? {
      forall i | 0 <= i < |ajustes| ensures AjusteOk(ds, ajustes[i]) {}
      if forall i :: 0 <= i < |ajustes| ==> ajustes[i].importe == 0 {
        SumZero(BuildLines(ds, ajustes).state, Total());
      }
    } else if |ajustes| > 0 && Distintos(ajustes) {
      var i :| 0 <= i < |ajustes| && !AjusteOk(ds, ajustes[i]);
    }
  }
}
