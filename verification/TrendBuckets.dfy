/**
 The buckets behind the trend charts: hours or days up to now for a store's sales, days or months
 for the companies of the platform. Instants are integer milliseconds; the server's local time is a
 fixed number of milliseconds behind UTC.
 */
module TrendBuckets {
  import opened Sums
  import opened Calendar
  import HistoryRange

  const HORA_MS: int := 3_600_000

  /** What a bucket's key string spells: a local calendar day, with the hour in an hourly chart. */
  datatype Clave = SinClave | PorHora(fecha: Fecha, hora: int) | PorDia(fecha: Fecha)

  /** The instants from start to fin, both included. */
  datatype Bucket = Bucket(key: Clave, start: int, fin: int)

  datatype Hecho = Hecho(createdAt: int, total: int)

  datatype Filtro = Hoy | Dias7 | Dias14 | Dias30

  // ---------------------------------------------------------------- covering a range

  /** Buckets one after the other, without gap or overlap, from a to b. */
  ghost predicate Cubre(bs: seq<Bucket>, a: int, b: int) {
    && |bs| > 0 && bs[0].start == a && bs[|bs| - 1].fin == b
    && (forall i :: 0 <= i < |bs| ==> bs[i].start <= bs[i].fin)
    && (forall i :: 0 < i < |bs| ==> bs[i].start == bs[i - 1].fin + 1)
  }

  function Entre(a: int, b: int): Hecho -> int { (h: Hecho) => if a <= h.createdAt <= b then h.total else 0 }

  function EnBucket(hs: seq<Hecho>): Bucket -> int { (x: Bucket) => Sum(hs, Entre(x.start, x.fin)) }

  lemma {:induction false} BucketsAreOrdered(bs: seq<Bucket>, a: int, b: int, i: nat, j: nat)
    requires Cubre(bs, a, b) && i < j < |bs|
    ensures bs[i].fin < bs[j].start && bs[i].start < bs[j].start
    decreases j - i
  {
    if i + 1 == j {
    } else {
      BucketsAreOrdered(bs, a, b, i, j - 1);
    }
  }

  lemma {:induction false} PrefixTotals(bs: seq<Bucket>, a: int, b: int, hs: seq<Hecho>, k: nat)
    requires Cubre(bs, a, b) && 0 < k <= |bs|
    ensures Sum(bs[..k], EnBucket(hs)) == Sum(hs, Entre(a, bs[k - 1].fin))
  {
    SumPrefix(bs, k - 1, EnBucket(hs));
    if k == 1 {
    } else {
      PrefixTotals(bs, a, b, hs, k - 1);
      BucketsAreOrdered(bs, a, b, 0, k - 1);
      SumSplit(hs, Entre(a, bs[k - 1].fin), Entre(a, bs[k - 2].fin), Entre(bs[k - 1].start, bs[k - 1].fin));
    }
  }

  /** The values of the buckets add up to the total of the range they cover. */
  lemma BucketsAddUp(bs: seq<Bucket>, a: int, b: int, hs: seq<Hecho>)
    requires Cubre(bs, a, b)
    ensures Sum(bs, EnBucket(hs)) == Sum(hs, Entre(a, b))
  {
    PrefixTotals(bs, a, b, hs, |bs|);
    assert bs[..|bs|] == bs;
  }

  ghost predicate ClavesDistintas(bs: seq<Bucket>) {
    forall i, j :: 0 <= i < j < |bs| ==> bs[i].key != bs[j].key
  }

  // ---------------------------------------------------------------- the store's dashboard

  /** The local day of an instant, counted from 1970-01-01. */
  function DiaLocal(t: int, desfase: int): int { (t - desfase) / DIA_MS }

  /** The instant local hour or day u begins, counted from the start of 1970. */
  function Inicio(porHora: bool, u: int, desfase: int): int {
    if porHora then desfase + u * HORA_MS else desfase + u * DIA_MS
  }

  function Ancho(porHora: bool): int { if porHora then HORA_MS else DIA_MS }

  lemma LocalDayHolds(t: int, desfase: int)
    ensures Inicio(false, DiaLocal(t, desfase), desfase) <= t < Inicio(false, DiaLocal(t, desfase) + 1, desfase)
  {
  }

  lemma NextStart(porHora: bool, u: int, desfase: int)
    ensures Inicio(porHora, u + 1, desfase) == Inicio(porHora, u, desfase) + Ancho(porHora)
    ensures Ancho(porHora) > 0
    ensures Inicio(true, 24 * u, desfase) == Inicio(false, u, desfase)
  {
  }

  /** The day, and hour, the local clock shows when unit u begins. */
  function ClaveDe(porHora: bool, u: int): Clave
    requires 0 <= if porHora then u / 24 + EPOCA else u + EPOCA
  {
    if porHora then PorHora(FechaDe(u / 24 + EPOCA), u % 24) else PorDia(FechaDe(u + EPOCA))
  }

  lemma KeysAreDistinct(porHora: bool, u: int, v: int)
    requires u != v
    requires 0 <= if porHora then u / 24 + EPOCA else u + EPOCA
    requires 0 <= if porHora then v / 24 + EPOCA else v + EPOCA
    ensures ClaveDe(porHora, u) != ClaveDe(porHora, v)
  {
    if porHora {
      assert Dia(FechaDe(u / 24 + EPOCA)) == u / 24 + EPOCA && Dia(FechaDe(v / 24 + EPOCA)) == v / 24 + EPOCA;
      assert u == 24 * (u / 24) + u % 24 && v == 24 * (v / 24) + v % 24;
    } else {
      assert Dia(FechaDe(u + EPOCA)) == u + EPOCA && Dia(FechaDe(v + EPOCA)) == v + EPOCA;
    }
  }

  function Dias(f: Filtro): int {
    match f case Hoy => 1 case Dias7 => 7 case Dias14 => 14 case Dias30 => 30
  }

  /** getDateFilterRange: the first local day of the filter, today included in the count. */
  function PrimerDia(f: Filtro, now: int, desfase: int): int { DiaLocal(now, desfase) - (Dias(f) - 1) }

  /** The i-th unit of the chart, from its first day on. */
  function Unidad(porHora: bool, d: int, i: nat): int { if porHora then 24 * d + i else d + i }

  lemma UnitIsInCalendar(porHora: bool, d: int, i: nat)
    requires d + EPOCA >= 0
    ensures 0 <= if porHora then Unidad(porHora, d, i) / 24 + EPOCA else Unidad(porHora, d, i) + EPOCA
  {
  }

  function Cubo(porHora: bool, d: int, i: nat, desfase: int, end: int): Bucket
    requires d + EPOCA >= 0
  {
    UnitIsInCalendar(porHora, d, i);
    var u := Unidad(porHora, d, i);
    Bucket(ClaveDe(porHora, u), Inicio(porHora, u, desfase), Min(Inicio(porHora, u + 1, desfase) - 1, end))
  }

  /** What the loop has pushed once its cursor stands at `current`. */
  ghost predicate Empujados(bs: seq<Bucket>, porHora: bool, d: int, desfase: int, end: int, current: int)
    requires d + EPOCA >= 0
  {
    && current == Inicio(porHora, Unidad(porHora, d, |bs|), desfase)
    && (forall i :: 0 <= i < |bs| ==> bs[i] == Cubo(porHora, d, i, desfase, end) && bs[i].start <= end)
  }

  lemma PushNothing(porHora: bool, d: int, desfase: int, end: int)
    requires d + EPOCA >= 0
    ensures Empujados([], porHora, d, desfase, end, Inicio(false, d, desfase))
  {
    NextStart(porHora, d, desfase);
  }

  lemma PushOne(bs: seq<Bucket>, porHora: bool, d: int, desfase: int, end: int, current: int)
    requires d + EPOCA >= 0 && Empujados(bs, porHora, d, desfase, end, current) && current <= end
    ensures 0 <= if porHora then Unidad(porHora, d, |bs|) / 24 + EPOCA else Unidad(porHora, d, |bs|) + EPOCA
    ensures var x := Bucket(ClaveDe(porHora, Unidad(porHora, d, |bs|)), current, Min(current + Ancho(porHora) - 1, end));
            Empujados(bs + [x], porHora, d, desfase, end, current + Ancho(porHora))
  {
    hide Inicio, ClaveDe, FechaDe;
    UnitIsInCalendar(porHora, d, |bs|);
    NextStart(porHora, Unidad(porHora, d, |bs|), desfase);
  }

  lemma PushedCover(bs: seq<Bucket>, porHora: bool, d: int, desfase: int, end: int, current: int)
    requires d + EPOCA >= 0 && Empujados(bs, porHora, d, desfase, end, current)
    requires Inicio(false, d, desfase) <= end < current
    ensures Cubre(bs, Inicio(false, d, desfase), end) && ClavesDistintas(bs)
    ensures forall i :: 0 <= i < |bs| ==> bs[i].fin - bs[i].start < Ancho(porHora)
  {
    hide Inicio, ClaveDe, FechaDe;
    NextStart(porHora, d, desfase);
    forall i | 0 <= i < |bs|
      ensures bs[i].start <= bs[i].fin && bs[i].fin - bs[i].start < Ancho(porHora)
      ensures i > 0 ==> bs[i].start == bs[i - 1].fin + 1
      ensures i == |bs| - 1 ==> bs[i].fin == end
    {
      NextStart(porHora, Unidad(porHora, d, i), desfase);
      if i > 0 {
        assert bs[i - 1] == Cubo(porHora, d, i - 1, desfase, end);
        NextStart(porHora, Unidad(porHora, d, i - 1), desfase);
      }
    }
    forall i, j | 0 <= i < j < |bs| ensures bs[i].key != bs[j].key {
      UnitIsInCalendar(porHora, d, i);
      UnitIsInCalendar(porHora, d, j);
      KeysAreDistinct(porHora, Unidad(porHora, d, i), Unidad(porHora, d, j));
    }
  }

  /** The chart of today: one bucket for each local hour begun so far. */
  predicate HorasDeHoy(bs: seq<Bucket>, now: int, desfase: int) {
    var d := DiaLocal(now, desfase);
    && d + EPOCA >= 0
    && |bs| == (now - desfase - d * DIA_MS) / HORA_MS + 1 <= 24
    && forall i :: 0 <= i < |bs| ==>
         bs[i].key == PorHora(FechaDe(d + EPOCA), i) && bs[i].start == desfase + d * DIA_MS + i * HORA_MS
  }

  /** The chart of the last n local days, today the last of them. */
  predicate UltimosDias(bs: seq<Bucket>, now: int, desfase: int, n: nat) {
    var d := DiaLocal(now, desfase) - n + 1;
    && d + EPOCA >= 0
    && |bs| == n
    && forall i :: 0 <= i < n ==> bs[i].key == PorDia(FechaDe(d + i + EPOCA)) && bs[i].start == desfase + (d + i) * DIA_MS
  }

  lemma ShownHours(bs: seq<Bucket>, now: int, desfase: int, current: int)
    requires var d := DiaLocal(now, desfase);
             d + EPOCA >= 0 && Empujados(bs, true, d, desfase, now, current) && now < current
    ensures HorasDeHoy(bs, now, desfase)
  {
    hide FechaDe, Cubo;
    var d, k := DiaLocal(now, desfase), |bs| - 1;
    LocalDayHolds(now, desfase);
    BucketShows(bs, true, d, desfase, now, current);
    assert k >= 0 && bs[k].start <= now;
    assert k * HORA_MS <= now - desfase - d * DIA_MS < (k + 1) * HORA_MS;
    assert k < 24;
  }

  lemma ShownDays(bs: seq<Bucket>, now: int, desfase: int, n: nat, current: int)
    requires var d := DiaLocal(now, desfase) - n + 1;
             n > 0 && d + EPOCA >= 0 && Empujados(bs, false, d, desfase, now, current) && now < current
    ensures UltimosDias(bs, now, desfase, n)
  {
    hide FechaDe, Cubo;
    var d, k := DiaLocal(now, desfase) - n + 1, |bs| - 1;
    LocalDayHolds(now, desfase);
    BucketShows(bs, false, d, desfase, now, current);
    assert k >= 0 && bs[k].start <= now;
    assert (d + k) * DIA_MS <= now - desfase < (d + k + 1) * DIA_MS;
  }

  lemma BucketShows(bs: seq<Bucket>, porHora: bool, d: int, desfase: int, end: int, current: int)
    requires d + EPOCA >= 0 && Empujados(bs, porHora, d, desfase, end, current)
    ensures forall i :: 0 <= i < |bs| ==> bs[i].start <= end && bs[i].start == Inicio(porHora, Unidad(porHora, d, i), desfase)
    ensures forall i :: 0 <= i < |bs| && !porHora ==> bs[i].key == PorDia(FechaDe(d + i + EPOCA))
    ensures forall i :: 0 <= i < |bs| && i < 24 && porHora ==> bs[i].key == PorHora(FechaDe(d + EPOCA), i)
  {
    hide FechaDe;
    forall i | 0 <= i < |bs| && i < 24 && porHora ensures bs[i].key == PorHora(FechaDe(d + EPOCA), i) {
      HourOfDay(d, i);
    }
  }

  lemma HourOfDay(d: int, i: nat)
    requires i < 24
    ensures (24 * d + i) / 24 == d && (24 * d + i) % 24 == i
  {
  }

  /** getTrendRange: its two loops, hour by hour for today and day by day otherwise. */
  method GetTrendRange(f: Filtro, now: int, desfase: int) returns (start: int, buckets: seq<Bucket>)
    requires PrimerDia(f, now, desfase) + EPOCA >= 0
    ensures start == Inicio(false, PrimerDia(f, now, desfase), desfase)
    ensures Cubre(buckets, start, now) && ClavesDistintas(buckets)
    ensures forall i :: 0 <= i < |buckets| ==> buckets[i].fin - buckets[i].start < Ancho(f == Hoy)
    ensures match f
            case Hoy => HorasDeHoy(buckets, now, desfase)
            case Dias7 => UltimosDias(buckets, now, desfase, 7)
            case Dias14 => UltimosDias(buckets, now, desfase, 14)
            case Dias30 => UltimosDias(buckets, now, desfase, 30)
  {
    hide DiaLocal, Cubre, ClavesDistintas, Inicio, ClaveDe, Empujados, HorasDeHoy, UltimosDias;
    var d := PrimerDia(f, now, desfase);
    StartIsBefore(f, now, desfase);
    start := Inicio(false, d, desfase);
    buckets := [];
    var current := start;
    if f == Hoy {
      PushNothing(true, d, desfase, now);
      while current <= now
        invariant Empujados(buckets, true, d, desfase, now, current)
        decreases now + HORA_MS - current
      {
        PushOne(buckets, true, d, desfase, now, current);
        buckets := buckets + [Bucket(ClaveDe(true, Unidad(true, d, |buckets|)), current, Min(current + HORA_MS - 1, now))];
        current := current + HORA_MS;
      }
      PushedCover(buckets, true, d, desfase, now, current);
      ShownHours(buckets, now, desfase, current);
    } else {
      PushNothing(false, d, desfase, now);
      while current <= now
        invariant Empujados(buckets, false, d, desfase, now, current)
        decreases now + DIA_MS - current
      {
        PushOne(buckets, false, d, desfase, now, current);
        buckets := buckets + [Bucket(ClaveDe(false, Unidad(false, d, |buckets|)), current, Min(current + DIA_MS - 1, now))];
        current := current + DIA_MS;
      }
      PushedCover(buckets, false, d, desfase, now, current);
      ShownDays(buckets, now, desfase, Dias(f), current);
    }
  }

  lemma StartIsBefore(f: Filtro, now: int, desfase: int)
    ensures Inicio(false, PrimerDia(f, now, desfase), desfase) <= now
  {
    LocalDayHolds(now, desfase);
  }

  // ---------------------------------------------------------------- buildSalesTrend

  /** What the totals must hold after the first facts: each bucket's own sum under its key. */
  ghost predicate Acumulado(totals: map<Clave, int>, bs: seq<Bucket>, hs: seq<Hecho>) {
    forall i :: 0 <= i < |bs| ==> bs[i].key in totals && totals[bs[i].key] == EnBucket(hs)(bs[i])
  }

  lemma AcumularHecho(totals: map<Clave, int>, bs: seq<Bucket>, a: int, b: int, hs: seq<Hecho>, h: Hecho, k: nat)
    requires Cubre(bs, a, b) && ClavesDistintas(bs) && Acumulado(totals, bs, hs)
    requires k <= |bs| && forall i :: 0 <= i < k ==> !(bs[i].start <= h.createdAt <= bs[i].fin)
    requires k < |bs| ==> bs[k].start <= h.createdAt <= bs[k].fin
    ensures Acumulado(if k < |bs| then totals[bs[k].key := totals[bs[k].key] + h.total] else totals, bs, hs + [h])
  {
    var r := if k < |bs| then totals[bs[k].key := totals[bs[k].key] + h.total] else totals;
    forall i | 0 <= i < |bs| ensures bs[i].key in r && r[bs[i].key] == EnBucket(hs + [h])(bs[i]) {
      SumSnoc(hs, h, Entre(bs[i].start, bs[i].fin));
      if k < i {
        BucketsAreOrdered(bs, a, b, k, i);
      }
    }
  }

  /** Each bucket's value is the total of the sales made within it. */
  method BuildSalesTrend(sales: seq<Hecho>, buckets: seq<Bucket>, ghost a: int, ghost b: int) returns (values: seq<int>)
    requires Cubre(buckets, a, b) && ClavesDistintas(buckets)
    ensures |values| == |buckets|
    ensures forall i :: 0 <= i < |values| ==> values[i] == EnBucket(sales)(buckets[i])
  {
    var totals: map<Clave, int> := map[];
    for i := 0 to |buckets|
      invariant forall j :: 0 <= j < i ==> buckets[j].key in totals && totals[buckets[j].key] == 0
    {
      totals := totals[buckets[i].key := 0];
    }
    for n := 0 to |sales|
      invariant Acumulado(totals, buckets, sales[..n])
    {
      var k := 0;
      while k < |buckets| && !(buckets[k].start <= sales[n].createdAt <= buckets[k].fin)
        invariant 0 <= k <= |buckets|
        invariant forall i :: 0 <= i < k ==> !(buckets[i].start <= sales[n].createdAt <= buckets[i].fin)
      {
        k := k + 1;
      }
      AcumularHecho(totals, buckets, a, b, sales[..n], sales[n], k);
      assert sales[..n + 1] == sales[..n] + [sales[n]];
      if k < |buckets| {
        totals := totals[buckets[k].key := totals[buckets[k].key] + sales[n].total];
      }
    }
    assert sales[..|sales|] == sales;
    values := seq(|buckets|, i requires 0 <= i < |buckets| => totals[buckets[i].key]);
  }

  /** The chart shows every sale of the range once: its values add up to the range's total. */
  lemma SalesTrendAddsUp(buckets: seq<Bucket>, a: int, b: int, sales: seq<Hecho>, values: seq<int>)
    requires Cubre(buckets, a, b) && |values| == |buckets|
    requires forall i :: 0 <= i < |values| ==> values[i] == EnBucket(sales)(buckets[i])
    ensures Sum(values, (x: int) => x) == Sum(sales, Entre(a, b))
  {
    SumMatch(values, buckets, (x: int) => x, EnBucket(sales));
    BucketsAddUp(buckets, a, b, sales);
  }

  // ---------------------------------------------------------------- the platform's dashboard

  datatype FiltroPlataforma = PHoy | P7 | P14 | P30 | PMes | PAnio

  /** The day that opens month i of year y, counting from 0; month 12 is the next January. */
  function InicioDeMes(y: nat, i: nat): nat
    requires i <= 12
  {
    AntesDelAnio(y) + AntesDelMes(y, i + 1)
  }

  lemma NextJanuary(y: nat)
    ensures InicioDeMes(y, 12) == Dia(Fecha(y + 1, 1, 1))
  {
    MonthsFillYear(y);
    YearStep(y);
  }

  function DiasPlataforma(f: FiltroPlataforma, n: nat): int {
    match f
    case PHoy => 1
    case P7 => 7
    case P14 => 14
    case P30 => 30
    case PMes => FechaDe(n).dia
    case PAnio => 1
  }

  /** Bucket i of the period, closed at the last millisecond before the next one. */
  function CuboDe(f: FiltroPlataforma, n: nat, i: nat): Bucket
    requires f == PAnio ==> i < 12
    requires n >= 366
  {
    if f == PAnio then
      var y := FechaDe(n).anio;
      Bucket(SinClave, HistoryRange.Medianoche(InicioDeMes(y, i)), HistoryRange.Medianoche(InicioDeMes(y, i + 1)) - 1)
    else
      var d := n - DiasPlataforma(f, n) + 1 + i;
      Bucket(SinClave, HistoryRange.Medianoche(d), HistoryRange.Medianoche(d + 1) - 1)
  }

  function Cuantos(f: FiltroPlataforma, n: nat): (k: nat)
    ensures k >= 1 && (f == PAnio ==> k <= 12)
  {
    if f == PAnio then FechaDe(n).mes else DiasPlataforma(f, n)
  }

  function CubosDe(f: FiltroPlataforma, n: nat): (bs: seq<Bucket>)
    requires n >= 366
    ensures |bs| == Cuantos(f, n)
  {
    seq(Cuantos(f, n), i requires 0 <= i < Cuantos(f, n) => CuboDe(f, n, i))
  }

  /** buildDashboardPeriod: the instants from start on and before end, and the buckets. */
  function BuildDashboardPeriod(f: FiltroPlataforma, now: int): (r: (int, int, seq<Bucket>))
    requires HistoryRange.DiaLima(now) >= 366
  {
    var n := HistoryRange.DiaLima(now);
    (if f == PAnio then HistoryRange.Medianoche(InicioDeMes(FechaDe(n).anio, 0))
     else HistoryRange.Medianoche(n - DiasPlataforma(f, n) + 1),
     now + 1,
     CubosDe(f, n))
  }

  lemma MonthsGrow(y: nat, i: nat)
    requires i < 12
    ensures InicioDeMes(y, i) + DiasDelMes(y, i + 1) == InicioDeMes(y, i + 1)
    ensures InicioDeMes(y, i) < InicioDeMes(y, i + 1)
  {
  }

  lemma DayIsInItsMonth(n: nat)
    ensures n < InicioDeMes(FechaDe(n).anio, FechaDe(n).mes)
  {
    hide AntesDelAnio, DiasDelMes;
    MonthsGrow(FechaDe(n).anio, FechaDe(n).mes - 1);
  }

  lemma MidnightsIncrease(a: int, b: int)
    requires a < b
    ensures HistoryRange.Medianoche(a) <= HistoryRange.Medianoche(b) - 1
  {
  }

  lemma MonthBuckets(n: nat, i: nat)
    requires n >= 366 && i < FechaDe(n).mes
    ensures CuboDe(PAnio, n, i).start <= CuboDe(PAnio, n, i).fin
    ensures i > 0 ==> CuboDe(PAnio, n, i).start == CuboDe(PAnio, n, i - 1).fin + 1
  {
    hide InicioDeMes, FechaDe, HistoryRange.Medianoche;
    var y := FechaDe(n).anio;
    MonthsGrow(y, i);
    MidnightsIncrease(InicioDeMes(y, i), InicioDeMes(y, i + 1));
  }

  lemma DayBuckets(f: FiltroPlataforma, n: nat, i: nat)
    requires n >= 366 && f != PAnio
    ensures CuboDe(f, n, i).start <= CuboDe(f, n, i).fin
    ensures i > 0 ==> CuboDe(f, n, i).start == CuboDe(f, n, i - 1).fin + 1
    ensures i == DiasPlataforma(f, n) - 1 ==> CuboDe(f, n, i).fin == HistoryRange.Medianoche(n + 1) - 1
  {
  }

  lemma LastMonthEndsLater(n: nat)
    requires n >= 366
    ensures CuboDe(PAnio, n, FechaDe(n).mes - 1).fin >= HistoryRange.Medianoche(n + 1) - 1
  {
    hide InicioDeMes, FechaDe, HistoryRange.Medianoche;
    var m := FechaDe(n).mes;
    DayIsInItsMonth(n);
    HistoryRange.MidnightsAreOrdered(n + 1, InicioDeMes(FechaDe(n).anio, m));
  }

  /** Bucket i is not empty and begins where the one before it ends. */
  lemma BucketsMeet(f: FiltroPlataforma, n: nat, i: nat)
    requires n >= 366 && i < Cuantos(f, n)
    ensures CuboDe(f, n, i).start <= CuboDe(f, n, i).fin
    ensures i > 0 ==> CuboDe(f, n, i).start == CuboDe(f, n, i - 1).fin + 1
    ensures i == Cuantos(f, n) - 1 ==> CuboDe(f, n, i).fin >= HistoryRange.Medianoche(n + 1) - 1
  {
    hide CuboDe, HistoryRange.Medianoche, FechaDe;
    if f == PAnio {
      MonthBuckets(n, i);
      if i == Cuantos(f, n) - 1 { LastMonthEndsLater(n); }
    } else {
      DayBuckets(f, n, i);
    }
  }

  lemma PeriodBegins(f: FiltroPlataforma, now: int)
    requires HistoryRange.DiaLima(now) >= 366
    ensures BuildDashboardPeriod(f, now).0 == CuboDe(f, HistoryRange.DiaLima(now), 0).start
  {
    hide HistoryRange.DiaLima, HistoryRange.Medianoche, FechaDe, InicioDeMes;
  }

  /** The buckets run without gap or overlap from the start of the period to past its end. */
  lemma PeriodIsCovered(f: FiltroPlataforma, now: int)
    requires HistoryRange.DiaLima(now) >= 366
    ensures var r := BuildDashboardPeriod(f, now);
            exists b :: b >= r.1 - 1 && Cubre(r.2, r.0, b)
  {
    hide HistoryRange.DiaLima, HistoryRange.Medianoche, FechaDe, InicioDeMes, CuboDe, Cuantos;
    var r, n := BuildDashboardPeriod(f, now), HistoryRange.DiaLima(now);
    var bs := r.2;
    HistoryRange.LimaDayIff(now, n);
    forall i | 0 <= i < |bs| ensures bs[i].start <= bs[i].fin && (i > 0 ==> bs[i].start == bs[i - 1].fin + 1) {
      BucketsMeet(f, n, i);
    }
    BucketsMeet(f, n, |bs| - 1);
    PeriodBegins(f, now);
    assert Cubre(bs, r.0, bs[|bs| - 1].fin);
  }

  /** The period of the last k days: it starts k - 1 days before today, and bucket i is its day i. */
  predicate DiasHasta(n: nat, k: int, start: int, bs: seq<Bucket>) {
    && start == HistoryRange.Medianoche(n - k + 1) && |bs| == k
    && forall i :: 0 <= i < k ==>
         bs[i].start == HistoryRange.Medianoche(n - k + 1 + i) && bs[i].fin + 1 == HistoryRange.Medianoche(n - k + 2 + i)
  }

  /** Which days each period of days shows: one, seven, fourteen or thirty up to today, or the month from its first day. */
  lemma PeriodShows(f: FiltroPlataforma, now: int)
    requires HistoryRange.DiaLima(now) >= 366 && f != PAnio
    ensures var n, r := HistoryRange.DiaLima(now), BuildDashboardPeriod(f, now);
            && r.1 == now + 1
            && match f
               case PHoy => DiasHasta(n, 1, r.0, r.2)
               case P7 => DiasHasta(n, 7, r.0, r.2)
               case P14 => DiasHasta(n, 14, r.0, r.2)
               case P30 => DiasHasta(n, 30, r.0, r.2)
               case PMes => DiasHasta(n, FechaDe(n).dia, r.0, r.2) && r.0 == HistoryRange.Medianoche(Dia(FechaDe(n).(dia := 1)))
               case PAnio => true
  {
    hide HistoryRange.DiaLima, CubosDe, FechaDe, InicioDeMes, Dia, HistoryRange.Medianoche, DiasHasta;
    DaysShown(f, HistoryRange.DiaLima(now));
    HistoryRange.FirstOfMonth(FechaDe(HistoryRange.DiaLima(now)));
  }

  /** The year runs from the first of January, and its buckets are its months up to this one. */
  lemma YearShows(now: int)
    requires HistoryRange.DiaLima(now) >= 366
    ensures var n, r := HistoryRange.DiaLima(now), BuildDashboardPeriod(PAnio, now);
            var y := FechaDe(n).anio;
            && r.0 == HistoryRange.Medianoche(Dia(Fecha(y, 1, 1))) && r.1 == now + 1 && |r.2| == FechaDe(n).mes
            && forall i :: 0 <= i < |r.2| ==>
                 && r.2[i].start == HistoryRange.Medianoche(Dia(Fecha(y, i + 1, 1)))
                 && r.2[i].fin + 1 == HistoryRange.Medianoche(Dia(MesSiguiente(y, i + 1)))
  {
    hide HistoryRange.DiaLima, CuboDe, FechaDe, InicioDeMes, Dia, HistoryRange.Medianoche;
    var n := HistoryRange.DiaLima(now);
    MonthOpens(FechaDe(n).anio, 1);
    forall i | 0 <= i < FechaDe(n).mes
      ensures CubosDe(PAnio, n)[i].start == HistoryRange.Medianoche(Dia(Fecha(FechaDe(n).anio, i + 1, 1)))
      ensures CubosDe(PAnio, n)[i].fin + 1 == HistoryRange.Medianoche(Dia(MesSiguiente(FechaDe(n).anio, i + 1)))
    {
      YearBucket(n, i);
    }
  }

  /** The first of the month after month m. */
  function MesSiguiente(y: nat, m: nat): Fecha { if m == 12 then Fecha(y + 1, 1, 1) else Fecha(y, m + 1, 1) }

  lemma MonthOpens(y: nat, m: nat)
    requires 1 <= m <= 12
    ensures InicioDeMes(y, m - 1) == Dia(Fecha(y, m, 1))
  {
  }

  lemma YearBucket(n: nat, i: nat)
    requires n >= 366 && i < 12
    ensures CuboDe(PAnio, n, i).start == HistoryRange.Medianoche(Dia(Fecha(FechaDe(n).anio, i + 1, 1)))
    ensures CuboDe(PAnio, n, i).fin + 1 == HistoryRange.Medianoche(Dia(MesSiguiente(FechaDe(n).anio, i + 1)))
  {
    hide FechaDe, InicioDeMes, Dia, HistoryRange.Medianoche;
    var y := FechaDe(n).anio;
    MonthOpens(y, i + 1);
    if i == 11 { NextJanuary(y); } else { MonthOpens(y, i + 2); }
  }

  lemma DaysShown(f: FiltroPlataforma, n: nat)
    requires n >= 366 && f != PAnio
    ensures var k := DiasPlataforma(f, n); DiasHasta(n, k, HistoryRange.Medianoche(n - k + 1), CubosDe(f, n))
  {
    hide FechaDe, HistoryRange.Medianoche;
  }

  /** The companies of the chart are those of the period: the counts add up to their number. */
  lemma CompanyTrendAddsUp(f: FiltroPlataforma, now: int, companies: seq<Hecho>)
    requires HistoryRange.DiaLima(now) >= 366
    requires var r := BuildDashboardPeriod(f, now);
             forall i :: 0 <= i < |companies| ==> companies[i].total == 1 && r.0 <= companies[i].createdAt < r.1
    ensures Sum(BuildDashboardPeriod(f, now).2, EnBucket(companies)) == |companies|
  {
    var r := BuildDashboardPeriod(f, now);
    PeriodIsCovered(f, now);
    var b :| b >= r.1 - 1 && Cubre(r.2, r.0, b);
    BucketsAddUp(r.2, r.0, b, companies);
    AllCount(companies, r.0, b);
  }

  lemma {:induction false} AllCount(hs: seq<Hecho>, a: int, b: int)
    requires forall i :: 0 <= i < |hs| ==> hs[i].total == 1 && a <= hs[i].createdAt <= b
    ensures Sum(hs, Entre(a, b)) == |hs|
  {
    if |hs| == 0 {
    } else {
      AllCount(hs[..|hs| - 1], a, b);
    }
  }
}
