/**
 The date filter of every history listing: a named period or two date strings become a half-open
 interval of instants made of whole Lima days. Instants are milliseconds since 1970-01-01 UTC and
 Lima is five hours behind it all year round.
 */
module HistoryRange {
  import opened Wrappers
  import opened Calendar

  datatype Periodo = Today | Yesterday | Week | Month | Custom

  datatype Consulta = Consulta(
    period: Option<Periodo>, dateFrom: Option<string>, dateTo: Option<string>, desde: Option<string>, hasta: Option<string>)

  /** Instants from gte on and before lt. */
  datatype Rango = Rango(gte: int, lt: int)

  const LIMA_MS: int := 18_000_000

  /** The Lima day an instant falls in, as a day number. */
  function DiaLima(t: int): int { (t - LIMA_MS) / DIA_MS + EPOCA }

  /** The instant a Lima day begins. */
  function Medianoche(n: int): int { (n - EPOCA) * DIA_MS + LIMA_MS }

  // ---------------------------------------------------------------- date strings

  /** The form `\d{4}-\d{2}-\d{2}`. */
  predicate Forma(s: string) {
    && |s| == 10 && s[4] == '-' && s[7] == '-'
    && EsDigito(s[0]) && EsDigito(s[1]) && EsDigito(s[2]) && EsDigito(s[3])
    && EsDigito(s[5]) && EsDigito(s[6]) && EsDigito(s[8]) && EsDigito(s[9])
  }

  function Campos(s: string): Fecha
    requires Forma(s)
  {
    Fecha(Num(s[..4]), Num(s[5..7]), Num(s[8..10]))
  }

  function Formato(f: Fecha): string { Pad(f.anio, 4) + "-" + Pad(f.mes, 2) + "-" + Pad(f.dia, 2) }

  /**
   toISOString cut to ten characters: from year 10000 on the year has a sign and six digits, and the
   cut leaves no room for the day.
   */
  function IsoDia(n: nat): (s: string)
    ensures |s| == 10
  {
    var f := FechaDe(n);
    if f.anio < 10000 then Formato(f) else "+" + Pad(f.anio, 6) + "-" + Pad(f.mes, 2)
  }

  /** `new Date` of a string of this form: no such instant unless month and day are in 1-12 and 1-31. */
  function LeerDia(s: string): Option<nat>
    requires Forma(s)
  {
    var f := Campos(s);
    if 1 <= f.mes <= 12 && 1 <= f.dia <= 31 then Some(Dia(f)) else None
  }

  /** ensureDate: the string must have the form, name an instant, and be what that instant prints. */
  predicate EnsureDate(s: string) {
    Forma(s) && LeerDia(s).Some? && IsoDia(LeerDia(s).value) == s
  }

  lemma FormatoOfCampos(s: string)
    requires Forma(s)
    ensures Formato(Campos(s)) == s
    ensures Campos(s).anio < 10000 && Campos(s).mes < 100 && Campos(s).dia < 100
  {
    hide Pad, Num;
    PadOfNum(s[..4]);
    PadOfNum(s[5..7]);
    PadOfNum(s[8..10]);
    assert s == s[..4] + s[4..5] + s[5..7] + s[7..8] + s[8..10];
    assert s[4..5] == "-" && s[7..8] == "-";
    SmallPowers();
  }

  lemma SmallPowers()
    ensures Pow10(2) == 100 && Pow10(4) == 10000
  {
    assert Pow10(1) == 10 && Pow10(3) == 1000;
  }

  lemma CamposOfFormato(f: Fecha)
    requires f.anio < 10000 && f.mes < 100 && f.dia < 100
    ensures Forma(Formato(f)) && Campos(Formato(f)) == f
  {
    SmallPowers();
    NumOfPad(f.anio, 4);
    NumOfPad(f.mes, 2);
    NumOfPad(f.dia, 2);
    var s, y, m, d := Formato(f), Pad(f.anio, 4), Pad(f.mes, 2), Pad(f.dia, 2);
    assert s[..4] == y && s[5..7] == m && s[8..10] == d;
    assert s[0] == y[0] && s[1] == y[1] && s[2] == y[2] && s[3] == y[3];
    assert s[5] == m[0] && s[6] == m[1] && s[8] == d[0] && s[9] == d[1];
  }

  /** The full-date production of RFC 3339, section 5.6, with the days per month of section 5.7. */
  predicate FullDate(s: string) { Forma(s) && FechaOk(Campos(s)) }

  lemma SmallFields(f: Fecha)
    ensures FechaOk(f) ==> 1 <= f.mes <= 12 && 1 <= f.dia <= 31
  {
  }

  /** ensureDate accepts exactly the valid calendar dates. */
  lemma EnsureDateIff(s: string)
    ensures EnsureDate(s) <==> FullDate(s)
  {
    hide FechaOk, Dia, FechaDe, Num, Pad;
    if Forma(s) {
      var f := Campos(s);
      FormatoOfCampos(s);
      SmallFields(f);
      if 1 <= f.mes <= 12 && 1 <= f.dia <= 31 {
        FechaDeDia(f);
        var g := FechaDe(Dia(f));
        if g.anio < 10000 {
          CamposOfFormato(g);
        } else {
          assert IsoDia(Dia(f))[0] == '+';
        }
      }
    }
  }

  /** On valid dates the comparison of strings is the comparison of days (section 5.1 of RFC 3339). */
  lemma StringOrderIsChronological(a: string, b: string)
    requires FullDate(a) && FullDate(b)
    ensures MenorQue(a, b) <==> Dia(Campos(a)) < Dia(Campos(b))
  {
    var f, g := Campos(a), Campos(b);
    FormatoOfCampos(a);
    FormatoOfCampos(b);
    SmallPowers();
    PadIsOrdered(f.anio, g.anio, 4);
    PadIsOrdered(f.mes, g.mes, 2);
    PadIsOrdered(f.dia, g.dia, 2);
    var y, z, m, n, d, e := Pad(f.anio, 4), Pad(g.anio, 4), Pad(f.mes, 2), Pad(g.mes, 2), Pad(f.dia, 2), Pad(g.dia, 2);
    assert a == y + ("-" + (m + ("-" + d))) && b == z + ("-" + (n + ("-" + e)));
    MenorQueConcat(y, z, "-" + (m + ("-" + d)), "-" + (n + ("-" + e)));
    MenorQueConcat("-", "-", m + ("-" + d), n + ("-" + e));
    MenorQueConcat(m, n, "-" + d, "-" + e);
    MenorQueConcat("-", "-", d, e);
    DiaIsChronological(f, g);
  }

  // ---------------------------------------------------------------- resolveHistoryDateRange

  function AddDays(s: string, amount: int): string
    requires Forma(s) && LeerDia(s).Some? && LeerDia(s).value + amount >= 0
  {
    IsoDia(LeerDia(s).value + amount)
  }

  /** The days of years 1 to 9999. */
  predicate Corriente(n: int) { 366 <= n < 3_652_425 }

  lemma YearLimits()
    ensures AntesDelAnio(1) == 366 && AntesDelAnio(10000) == 3_652_425
  {
  }

  lemma CorrienteIff(n: nat)
    ensures Corriente(n) <==> 1 <= FechaDe(n).anio < 10000
  {
    hide AntesDelAnio, DiasDelAnio, Dia, FechaDe;
    var y := FechaDe(n).anio;
    DayInsideYear(FechaDe(n));
    YearLimits();
    if y == 0 { YearsAreOrdered(0, 1); }
    if 1 < y { YearsAreOrdered(1, y); }
    if y < 10000 { YearsAreOrdered(y, 10000); }
    if 10000 < y { YearsAreOrdered(10000, y); }
  }

  lemma IsoDiaIsItsDay(n: nat)
    requires FechaDe(n).anio < 10000
    ensures IsoDia(n) == Formato(FechaDe(n)) && FullDate(IsoDia(n)) && Campos(IsoDia(n)) == FechaDe(n)
    ensures Dia(Campos(IsoDia(n))) == n
    ensures LeerDia(IsoDia(n)) == Some(n)
  {
    hide FechaOk, Dia, FechaDe, Num, Pad;
    CamposOfFormato(FechaDe(n));
    LeerOfFullDate(IsoDia(n));
  }

  lemma MonthString(f: Fecha)
    requires FechaOk(f) && f.anio < 10000
    ensures Formato(f)[..7] + "-01" == Formato(f.(dia := 1))
  {
    assert Formato(f)[..7] == Pad(f.anio, 4) + "-" + Pad(f.mes, 2);
    assert Pad(1, 2) == "01" by {
      assert Pad(1, 2) == Pad(0, 1) + [Digito(1)];
      assert Pad(0, 1) == Pad(0, 0) + [Digito(0)];
    }
  }

  predicate Escrita(s: Option<string>) { s.Some? && s.value != "" }

  function PeriodoDe(q: Consulta): Periodo {
    if q.period.Some? then q.period.value
    else if Escrita(q.dateFrom) || Escrita(q.dateTo) || Escrita(q.desde) || Escrita(q.hasta) then Custom
    else Today
  }

  function Primero(a: Option<string>, b: Option<string>, c: string): string {
    if a.Some? then a.value else if b.Some? then b.value else c
  }

  /** The two date strings, before they are checked; n is today in Lima. */
  function Extremos(q: Consulta, n: nat): (string, string)
    requires Corriente(n)
  {
    var today := IsoDia(n);
    CorrienteIff(n);
    IsoDiaIsItsDay(n);
    match PeriodoDe(q)
    case Today => (today, today)
    case Yesterday => (AddDays(today, -1), AddDays(today, -1))
    case Week => (AddDays(today, -((DiaSemana(n) + 6) % 7)), today)
    case Month => (today[..7] + "-01", today)
    case Custom => var from := Primero(q.dateFrom, q.desde, ""); (from, Primero(q.dateTo, q.hasta, from))
  }

  /**
   The day a ten-character date string opens, in ECMAScript's date-time format: a full date, or an
   expanded year and a month, which stand for the first of that month.
   */
  function DiaDe(s: string): Option<nat> {
    if FullDate(s) then Some(Dia(Campos(s)))
    else if |s| == 10 && s[0] == '+' && s[7] == '-' && (forall i :: 1 <= i < 10 && i != 7 ==> EsDigito(s[i])) then
      var y, m := Num(s[1..7]), Num(s[8..10]);
      if 1 <= m <= 12 then Some(Dia(Fecha(y, m, 1))) else None
    else None
  }

  function Resolver(q: Consulta, now: int): Outcome<Rango>
    requires Corriente(DiaLima(now))
  {
    var (from, to) := Extremos(q, DiaLima(now));
    Abrir(from, to)
  }

  /** The checks and the interval, from two date strings. */
  function Abrir(from: string, to: string): Outcome<Rango> {
    if from == "" || to == "" || !EnsureDate(from) || !EnsureDate(to) || MenorQue(to, from) then Refused(BadRequest)
    else
      EnsureDateIff(from);
      EnsureDateIff(to);
      NextDayParses(to);
      Done(Rango(Medianoche(DiaDe(from).value), Medianoche(DiaDe(AddDays(to, 1)).value)))
  }

  lemma FullDateParses(f: Fecha)
    requires FechaOk(f) && f.anio < 10000
    ensures DiaDe(Formato(f)) == Some(Dia(f))
  {
    CamposOfFormato(f);
  }

  lemma ExpandedParses(y: nat, m: nat)
    requires y < 1_000_000 && 1 <= m <= 12
    ensures DiaDe("+" + Pad(y, 6) + "-" + Pad(m, 2)) == Some(Dia(Fecha(y, m, 1)))
  {
    var t := "+" + Pad(y, 6) + "-" + Pad(m, 2);
    SmallPowers();
    assert Pow10(6) == 1_000_000 by { assert Pow10(5) == 100_000; }
    NumOfPad(y, 6);
    NumOfPad(m, 2);
    assert t[1..7] == Pad(y, 6) && t[8..10] == Pad(m, 2);
    assert t[0] == '+' && !EsDigito(t[0]);
    forall i | 1 <= i < 10 && i != 7 ensures EsDigito(t[i]) {
      if i < 7 { assert t[i] == Pad(y, 6)[i - 1]; } else { assert t[i] == Pad(m, 2)[i - 8]; }
    }
  }

  /** When the next day falls in a later year it is that year's first. */
  lemma NextDayIsNewYear(f: Fecha, g: Fecha, y: nat)
    requires FechaOk(f) && FechaOk(g) && Dia(g) == Dia(f) + 1 && f.anio < y <= g.anio
    ensures g == Fecha(y, 1, 1)
  {
    DayInsideYear(f);
    DayInsideYear(g);
    YearsAreOrdered(f.anio, y);
    if y < g.anio {
      YearsAreOrdered(y, g.anio);
    }
    var first := Fecha(y, 1, 1);
    assert Dia(first) == AntesDelAnio(y);
    DiaIsChronological(first, g);
    DiaIsChronological(g, first);
  }

  lemma LeerOfFullDate(s: string)
    requires FullDate(s)
    ensures LeerDia(s) == Some(Dia(Campos(s)))
  {
  }

  lemma IsoDiaParses(n: nat, f: Fecha)
    requires FechaOk(f) && f.anio < 10000 && n == Dia(f) + 1
    ensures DiaDe(IsoDia(n)) == Some(n)
  {
    hide Dia, FechaDe, Num, Pad;
    var g := FechaDe(n);
    if g.anio < 10000 {
      FullDateParses(g);
    } else {
      NextDayIsNewYear(f, g, 10000);
      ExpandedParses(10000, 1);
    }
  }

  /** The day after any valid date reads back, also the one after 9999-12-31. */
  lemma NextDayParses(s: string)
    requires FullDate(s)
    ensures LeerDia(s) == Some(Dia(Campos(s)))
    ensures DiaDe(AddDays(s, 1)) == Some(Dia(Campos(s)) + 1)
  {
    hide FechaOk, Dia, FechaDe, Num, Pad;
    LeerOfFullDate(s);
    FormatoOfCampos(s);
    IsoDiaParses(Dia(Campos(s)) + 1, Campos(s));
  }

  // ---------------------------------------------------------------- what the range is

  lemma MidnightsAreOrdered(a: int, b: int)
    requires a <= b
    ensures Medianoche(a) <= Medianoche(b)
  {
  }

  lemma LimaDayIff(t: int, n: int)
    ensures DiaLima(t) == n <==> Medianoche(n) <= t < Medianoche(n + 1)
  {
  }

  /** Two date strings are accepted exactly when both are valid dates in order, and open these midnights. */
  lemma AbrirIff(from: string, to: string)
    ensures Abrir(from, to).Done? <==> FullDate(from) && FullDate(to) && Dia(Campos(from)) <= Dia(Campos(to))
    ensures Abrir(from, to).Done? ==>
              Abrir(from, to).state == Rango(Medianoche(Dia(Campos(from))), Medianoche(Dia(Campos(to)) + 1))
  {
    hide FechaOk, Dia, FechaDe, Medianoche, Num, Pad;
    EnsureDateIff(from);
    EnsureDateIff(to);
    if FullDate(from) && FullDate(to) {
      StringOrderIsChronological(to, from);
      NextDayParses(to);
    }
  }

  /** A query is refused exactly when a date is not a valid one or they are the wrong way round. */
  lemma RefusedIff(q: Consulta, now: int)
    requires Corriente(DiaLima(now))
    ensures var e := Extremos(q, DiaLima(now));
            Resolver(q, now).Done? <==> FullDate(e.0) && FullDate(e.1) && Dia(Campos(e.0)) <= Dia(Campos(e.1))
  {
    AbrirIff(Extremos(q, DiaLima(now)).0, Extremos(q, DiaLima(now)).1);
  }

  /**
   An accepted range is non-empty and holds exactly the instants whose Lima day lies between its two
   dates: whole Lima days and nothing else.
   */
  lemma RangeIsWholeDays(q: Consulta, now: int, t: int)
    requires Corriente(DiaLima(now)) && Resolver(q, now).Done?
    ensures var r, e := Resolver(q, now).state, Extremos(q, DiaLima(now));
            && FullDate(e.0) && FullDate(e.1) && r.gte < r.lt
            && (r.gte <= t < r.lt <==> Dia(Campos(e.0)) <= DiaLima(t) <= Dia(Campos(e.1)))
  {
    var e := Extremos(q, DiaLima(now));
    AbrirIff(e.0, e.1);
    LimaDayIff(t, DiaLima(t));
  }

  /** The first day of a named period. */
  function Desde(p: Periodo, n: nat): nat
    requires p != Custom && Corriente(n)
  {
    match p
    case Today => n
    case Yesterday => n - 1
    case Week => n - (DiaSemana(n) + 6) % 7
    case Month => n - (FechaDe(n).dia - 1)
  }

  /** A week starts on the Monday on or before today, a month on the first of today's month. */
  lemma PeriodStarts(n: nat)
    requires Corriente(n)
    ensures DiaSemana(Desde(Week, n)) == 1 && n - 7 < Desde(Week, n) <= n
    ensures FechaDe(Desde(Month, n)) == FechaDe(n).(dia := 1) && Desde(Month, n) <= n
  {
    hide FechaDe, Dia;
    FirstOfMonth(FechaDe(n));
  }

  lemma FirstOfMonth(f: Fecha)
    requires FechaOk(f)
    ensures Dia(f.(dia := 1)) == Dia(f) - (f.dia - 1) && FechaDe(Dia(f.(dia := 1))) == f.(dia := 1)
  {
    FechaDeDia(f.(dia := 1));
  }

  lemma MonthStart(n: nat)
    requires Corriente(n)
    ensures IsoDia(n)[..7] + "-01" == IsoDia(Desde(Month, n))
  {
    hide FechaOk, Dia, FechaDe, Num, Pad;
    CorrienteIff(n);
    PeriodStarts(n);
    MonthString(FechaDe(n));
  }

  lemma AddDaysOfIso(n: nat, k: int)
    requires Corriente(n) && n + k >= 0
    ensures Forma(IsoDia(n)) && LeerDia(IsoDia(n)) == Some(n) && AddDays(IsoDia(n), k) == IsoDia(n + k)
  {
    hide FechaOk, Dia, FechaDe, Corriente, Num, Pad;
    CorrienteIff(n);
    IsoDiaIsItsDay(n);
  }

  lemma EarlierDay(m: nat, n: nat)
    requires m <= n && FechaDe(n).anio < 10000
    ensures FechaDe(m).anio < 10000
  {
    if FechaDe(n).anio < FechaDe(m).anio {
      DiaIsChronological(FechaDe(n), FechaDe(m));
    }
  }

  /** The strings of a named period are those of its first and last day. */
  lemma NamedStrings(q: Consulta, n: nat)
    requires Corriente(n) && PeriodoDe(q) != Custom
    ensures Extremos(q, n).0 == IsoDia(Desde(PeriodoDe(q), n))
    ensures Extremos(q, n).1 == IsoDia(if PeriodoDe(q) == Yesterday then n - 1 else n)
  {
    hide Num, Pad, FechaOk, FechaDe, Dia, IsoDia, LeerDia, Forma;
    AddDaysOfIso(n, -1);
    AddDaysOfIso(n, -((DiaSemana(n) + 6) % 7));
    MonthStart(n);
  }

  lemma NamedPeriods(q: Consulta, n: nat)
    requires Corriente(n) && PeriodoDe(q) != Custom
    ensures FullDate(Extremos(q, n).0) && Dia(Campos(Extremos(q, n).0)) == Desde(PeriodoDe(q), n)
    ensures FullDate(Extremos(q, n).1) && Dia(Campos(Extremos(q, n).1)) == (if PeriodoDe(q) == Yesterday then n - 1 else n)
  {
    hide FechaOk, Dia, FechaDe, Num, Pad;
    NamedStrings(q, n);
    CorrienteIff(n);
    var a, b := Desde(PeriodoDe(q), n), if PeriodoDe(q) == Yesterday then n - 1 else n;
    EarlierDay(a, n);
    EarlierDay(b, n);
    IsoDiaIsItsDay(a);
    IsoDiaIsItsDay(b);
  }

  /**
   A named period is never refused: today, week and month end with today and contain now, yesterday
   is the day before and does not.
   */
  lemma NamedPeriodsAreRight(q: Consulta, now: int)
    requires Corriente(DiaLima(now)) && PeriodoDe(q) != Custom
    ensures var p, n := PeriodoDe(q), DiaLima(now);
            && Resolver(q, now) == Done(Rango(Medianoche(Desde(p, n)), Medianoche(if p == Yesterday then n else n + 1)))
            && (Medianoche(Desde(p, n)) <= now < Medianoche(if p == Yesterday then n else n + 1) <==> p != Yesterday)
  {
    hide Num, Pad, FechaDe, Dia, DiaLima, Medianoche, IsoDia, FullDate, Extremos;
    var n := DiaLima(now);
    var e := Extremos(q, n);
    NamedPeriods(q, n);
    PeriodStarts(n);
    AbrirIff(e.0, e.1);
    LimaDayIff(now, n);
    MidnightsAreOrdered(Desde(PeriodoDe(q), n), n);
  }

  /** The first of two optional strings that is there. */
  function Dado(a: Option<string>, b: Option<string>): Option<string> { if a.Some? then a else b }

  /** Without a named period the dates count as soon as one of them is not empty; otherwise it is today. */
  lemma PeriodChosen(q: Consulta)
    ensures q.period.Some? ==> PeriodoDe(q) == q.period.value
    ensures q.period.None? ==>
              PeriodoDe(q) == if exists s :: s in [q.dateFrom, q.dateTo, q.desde, q.hasta] && s.Some? && s.value != ""
                then Custom else Today
  {
  }

  /**
   A query by dates is accepted exactly when a first date is given and valid, and the last date, if
   one is given, is valid and not before it; without a last date it is the one day. `dateFrom` and
   `dateTo` go before `desde` and `hasta` even when empty. The interval runs from the midnight of the
   first day to the midnight after the last.
   */
  lemma CustomRangeIff(q: Consulta, now: int)
    requires Corriente(DiaLima(now)) && PeriodoDe(q) == Custom
    ensures var o, first, last := Resolver(q, now), Dado(q.dateFrom, q.desde), Dado(Dado(q.dateTo, q.hasta), Dado(q.dateFrom, q.desde));
            && (o.Done? <==> first.Some? && FullDate(first.value) && FullDate(last.value)
                             && Dia(Campos(first.value)) <= Dia(Campos(last.value)))
            && (o.Done? ==> o.state.gte == Medianoche(Dia(Campos(first.value))) && o.state.lt == Medianoche(Dia(Campos(last.value)) + 1))
            && (o.Refused? ==> o.error == BadRequest)
  {
    hide FechaOk, Dia, FechaDe, Medianoche, Num, Pad;
    var e := Extremos(q, DiaLima(now));
    AbrirIff(e.0, e.1);
  }

  /** The two strings start as today and are reassigned by period. */
  method PeriodStrings(q: Consulta, n: nat) returns (from: string, to: string)
    requires Corriente(n)
    ensures (from, to) == Extremos(q, n)
  {
    hide FechaOk, Dia, FechaDe, Num, Pad, IsoDia;
    AddDaysOfIso(n, 0);
    var today := IsoDia(n);
    from, to := today, today;
    match PeriodoDe(q) {
      case Today =>
      case Yesterday =>
        from := AddDays(today, -1);
        to := from;
      case Week =>
        var weekday: int := DiaSemana(n);
        from := AddDays(today, -((weekday + 6) % 7));
      case Month =>
        from := today[..7] + "-01";
      case Custom =>
        from := Primero(q.dateFrom, q.desde, "");
        to := Primero(q.dateTo, q.hasta, from);
    }
  }

  method ResolveHistoryDateRange(q: Consulta, now: int) returns (r: Outcome<Rango>)
    requires Corriente(DiaLima(now))
    ensures r == Resolver(q, now)
  {
    hide FechaOk, Dia, FechaDe, Num, Pad, Medianoche, DiaLima, Forma, LeerDia, Extremos, MenorQue;
    var from, to := PeriodStrings(q, DiaLima(now));
    if from == "" || to == "" { return Refused(BadRequest); }
    if !EnsureDate(from) || !EnsureDate(to) { return Refused(BadRequest); }
    if MenorQue(to, from) { return Refused(BadRequest); }
    EnsureDateIff(from);
    EnsureDateIff(to);
    NextDayParses(to);
    r := Done(Rango(Medianoche(DiaDe(from).value), Medianoche(DiaDe(AddDays(to, 1)).value)));
  }
}
