/**
 Header totals of a credit or debit note: the value of the lines split by tax affectation, the tax
 and the total, each the sum of a column of the lines.
 */
module FiscalTotals {
  import opened Sums

  datatype Afectacion = Gravada | Exonerada | Inafecta | OtraAfectacion

  /** The columns of a line a header adds up. */
  datatype Importe = Importe(afectacion: Afectacion, valor: int, igv: int, total: int)

  datatype Totales = Totales(gravadas: int, exoneradas: int, inafectas: int, igv: int, total: int)

  function EsDe(a: Afectacion): Importe -> bool { (x: Importe) => x.afectacion == a }

  function Valor(): Importe -> int { (x: Importe) => x.valor }

  function Igv(): Importe -> int { (x: Importe) => x.igv }

  function Total(): Importe -> int { (x: Importe) => x.total }

  function SumLines(xs: seq<Importe>): Totales {
    Totales(Sum(Filter(xs, EsDe(Gravada)), Valor()), Sum(Filter(xs, EsDe(Exonerada)), Valor()),
            Sum(Filter(xs, EsDe(Inafecta)), Valor()), Sum(xs, Igv()), Sum(xs, Total()))
  }

  /** The parts of a header less its total. */
  function Descuadre(t: Totales): int { t.gravadas + t.exoneradas + t.inafectas + t.igv - t.total }

  function ValorSi(a: Afectacion): Importe -> int { (x: Importe) => if x.afectacion == a then x.valor else 0 }

  /** A line's parts less its total; a line of no listed affectation contributes no value to the header. */
  function DescuadreDe(): Importe -> int {
    (x: Importe) => (if x.afectacion == OtraAfectacion then 0 else x.valor) + x.igv - x.total
  }

  lemma {:induction false} FiveColumns(xs: seq<Importe>)
    ensures Sum(xs, ValorSi(Gravada)) + Sum(xs, ValorSi(Exonerada)) + Sum(xs, ValorSi(Inafecta)) + Sum(xs, Igv()) - Sum(xs, Total())
            == Sum(xs, DescuadreDe())
  {
    if |xs| == 0 {
    } else {
      FiveColumns(xs[..|xs| - 1]);
    }
  }

  /** Each column of the header adds up its own lines: the value of one affectation, all the tax, all the totals. */
  lemma HeaderColumns(xs: seq<Importe>)
    ensures var t := SumLines(xs);
            && t.gravadas == Sum(xs, ValorSi(Gravada)) && t.exoneradas == Sum(xs, ValorSi(Exonerada))
            && t.inafectas == Sum(xs, ValorSi(Inafecta))
            && t.igv == Sum(xs, (x: Importe) => x.igv) && t.total == Sum(xs, (x: Importe) => x.total)
  {
    SumFilter(xs, EsDe(Gravada), Valor(), ValorSi(Gravada));
    SumFilter(xs, EsDe(Exonerada), Valor(), ValorSi(Exonerada));
    SumFilter(xs, EsDe(Inafecta), Valor(), ValorSi(Inafecta));
    SumMatch(xs, xs, Igv(), (x: Importe) => x.igv);
    SumMatch(xs, xs, Total(), (x: Importe) => x.total);
  }

  /** A header is out of balance by exactly what its lines are. */
  lemma DescuadreIsSum(xs: seq<Importe>)
    ensures Descuadre(SumLines(xs)) == Sum(xs, DescuadreDe())
  {
    SumFilter(xs, EsDe(Gravada), Valor(), ValorSi(Gravada));
    SumFilter(xs, EsDe(Exonerada), Valor(), ValorSi(Exonerada));
    SumFilter(xs, EsDe(Inafecta), Valor(), ValorSi(Inafecta));
    FiveColumns(xs);
  }

  lemma {:induction false} WithinOneEach<T>(xs: seq<T>, f: T -> int)
    requires forall i :: 0 <= i < |xs| ==> -1 <= f(xs[i]) <= 1
    ensures -(|xs| as int) <= Sum(xs, f) <= |xs|
  {
    if |xs| == 0 {
    } else {
      WithinOneEach(xs[..|xs| - 1], f);
    }
  }
}
