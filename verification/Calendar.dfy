/**
 The proleptic Gregorian calendar and its decimal strings. A day is a number: days since 0000-01-01.
 */
module Calendar {

  const DIA_MS: int := 86_400_000

  datatype Fecha = Fecha(anio: nat, mes: nat, dia: nat)

  predicate Bisiesto(y: nat) { y % 4 == 0 && (y % 100 != 0 || y % 400 == 0) }

  function DiasDelAnio(y: nat): nat { if Bisiesto(y) then 366 else 365 }

  function DiasDelMes(y: nat, m: nat): nat
    requires 1 <= m <= 12
  {
    if m == 2 then (if Bisiesto(y) then 29 else 28)
    else if m == 4 || m == 6 || m == 9 || m == 11 then 30
    else 31
  }

  /** Days before 1 January of year y. */
  function AntesDelAnio(y: nat): nat { 365 * y + (y + 3) / 4 - (y + 99) / 100 + (y + 399) / 400 }

  /** Days of year y before the first of month m; month 13 is the end of the year. */
  function AntesDelMes(y: nat, m: nat): nat
    requires 1 <= m <= 13
  {
    if m == 1 then 0 else AntesDelMes(y, m - 1) + DiasDelMes(y, m - 1)
  }

  lemma Multiples(y: nat)
    ensures y % 400 == 0 ==> y % 100 == 0
    ensures y % 100 == 0 ==> y % 4 == 0
  {
    if y % 400 == 0 { assert y == 100 * (4 * (y / 400)); }
    if y % 100 == 0 { assert y == 4 * (25 * (y / 100)); }
  }

  lemma Step4(y: nat)
    ensures (y + 4) / 4 == (y + 3) / 4 + (if y % 4 == 0 then 1 else 0)
  {
  }

  lemma Step100(y: nat)
    ensures (y + 100) / 100 == (y + 99) / 100 + (if y % 100 == 0 then 1 else 0)
  {
  }

  lemma Step400(y: nat)
    ensures (y + 400) / 400 == (y + 399) / 400 + (if y % 400 == 0 then 1 else 0)
  {
  }

  lemma YearStep(y: nat)
    ensures AntesDelAnio(y + 1) == AntesDelAnio(y) + DiasDelAnio(y)
  {
    Multiples(y);
    Step4(y);
    Step100(y);
    Step400(y);
  }

  lemma MonthsFillYear(y: nat)
    ensures AntesDelMes(y, 13) == DiasDelAnio(y)
  {
    var b := if Bisiesto(y) then 1 else 0;
    assert AntesDelMes(y, 2) == 31;
    assert AntesDelMes(y, 3) == 59 + b;
    assert AntesDelMes(y, 4) == 90 + b;
    assert AntesDelMes(y, 5) == 120 + b;
    assert AntesDelMes(y, 6) == 151 + b;
    assert AntesDelMes(y, 7) == 181 + b;
    assert AntesDelMes(y, 8) == 212 + b;
    assert AntesDelMes(y, 9) == 243 + b;
    assert AntesDelMes(y, 10) == 273 + b;
    assert AntesDelMes(y, 11) == 304 + b;
    assert AntesDelMes(y, 12) == 334 + b;
  }

  predicate FechaOk(f: Fecha) { 1 <= f.mes <= 12 && 1 <= f.dia <= DiasDelMes(f.anio, f.mes) }

  /** The day number; a day of the month past its end runs on into the next month. */
  function Dia(f: Fecha): nat
    requires 1 <= f.mes <= 12 && 1 <= f.dia
  {
    AntesDelAnio(f.anio) + AntesDelMes(f.anio, f.mes) + f.dia - 1
  }

  function AnioDesde(n: nat, y: nat): (r: nat)
    requires AntesDelAnio(y) <= n
    ensures AntesDelAnio(r) <= n < AntesDelAnio(r) + DiasDelAnio(r)
    decreases n - AntesDelAnio(y)
  {
    YearStep(y);
    if n < AntesDelAnio(y) + DiasDelAnio(y) then y else AnioDesde(n, y + 1)
  }

  function MesDesde(y: nat, k: nat, m: nat): (r: nat)
    requires 1 <= m <= 12 && AntesDelMes(y, m) <= k < AntesDelMes(y, 13)
    ensures 1 <= r <= 12 && AntesDelMes(y, r) <= k < AntesDelMes(y, r) + DiasDelMes(y, r)
    decreases 12 - m
  {
    if k < AntesDelMes(y, m) + DiasDelMes(y, m) then m
    else MesDesde(y, k, m + 1)
  }

  /** The date of a day number. */
  function FechaDe(n: nat): (f: Fecha)
    ensures FechaOk(f) && Dia(f) == n
    ensures 1 <= f.mes <= 12 && 1 <= f.dia <= 31
  {
    var y := AnioDesde(n, 0);
    MonthsFillYear(y);
    var k := n - AntesDelAnio(y);
    var m := MesDesde(y, k, 1);
    Fecha(y, m, k - AntesDelMes(y, m) + 1)
  }

  lemma {:induction false} YearsAreOrdered(a: nat, b: nat)
    requires a < b
    ensures AntesDelAnio(a) + DiasDelAnio(a) <= AntesDelAnio(b)
    decreases b - a
  {
    YearStep(a);
    if a + 1 == b {
    } else {
      YearsAreOrdered(a + 1, b);
    }
  }

  lemma {:induction false} MonthsAreOrdered(y: nat, a: nat, b: nat)
    requires 1 <= a < b <= 13
    ensures AntesDelMes(y, a) + DiasDelMes(y, a) <= AntesDelMes(y, b)
    decreases b - a
  {
    if a + 1 == b {
    } else {
      MonthsAreOrdered(y, a, b - 1);
    }
  }

  predicate Anterior(a: Fecha, b: Fecha) {
    a.anio < b.anio || (a.anio == b.anio && (a.mes < b.mes || (a.mes == b.mes && a.dia < b.dia)))
  }

  /** Day numbers order valid dates as year, month and day do. */
  lemma DiaIsChronological(a: Fecha, b: Fecha)
    requires FechaOk(a) && FechaOk(b)
    ensures Anterior(a, b) <==> Dia(a) < Dia(b)
  {
    DayInsideYear(a);
    DayInsideYear(b);
    if a.anio < b.anio {
      YearsAreOrdered(a.anio, b.anio);
    } else if b.anio < a.anio {
      YearsAreOrdered(b.anio, a.anio);
    } else if a.mes < b.mes {
      MonthsAreOrdered(a.anio, a.mes, b.mes);
    } else if b.mes < a.mes {
      MonthsAreOrdered(a.anio, b.mes, a.mes);
    }
  }

  lemma DayInsideYear(f: Fecha)
    requires FechaOk(f)
    ensures AntesDelAnio(f.anio) <= Dia(f) < AntesDelAnio(f.anio) + DiasDelAnio(f.anio)
  {
    MonthsFillYear(f.anio);
    MonthsAreOrdered(f.anio, f.mes, 13);
  }

  /** FechaDe undoes Dia on valid dates; past the end of a month it never gives the same date back. */
  lemma FechaDeDia(f: Fecha)
    requires 1 <= f.mes <= 12 && 1 <= f.dia
    ensures FechaDe(Dia(f)) == f <==> FechaOk(f)
  {
    var g := FechaDe(Dia(f));
    if FechaOk(f) {
      DiaIsChronological(f, g);
      DiaIsChronological(g, f);
    }
  }

  /** Sunday is 0; 1970-01-01, day 719528, was a Thursday. */
  function DiaSemana(n: nat): nat { (n + 6) % 7 }

  const EPOCA: nat := 719528

  lemma EpochIsThursday()
    ensures Dia(Fecha(1970, 1, 1)) == EPOCA && DiaSemana(EPOCA) == 4
  {
  }

  // ---------------------------------------------------------------- decimal strings

  predicate EsDigito(c: char) { '0' <= c <= '9' }

  function Digito(n: nat): char
    requires n < 10
  {
    '0' + n as char
  }

  function Pow10(k: nat): nat { if k == 0 then 1 else 10 * Pow10(k - 1) }

  /** padStart to k digits. */
  function Pad(n: nat, k: nat): (s: string)
    ensures |s| == k && forall i :: 0 <= i < k ==> EsDigito(s[i])
  {
    if k == 0 then "" else Pad(n / 10, k - 1) + [Digito(n % 10)]
  }

  function Num(s: string): nat
    requires forall i :: 0 <= i < |s| ==> EsDigito(s[i])
  {
    if |s| == 0 then 0
    else
      assert EsDigito(s[|s| - 1]);
      10 * Num(s[..|s| - 1]) + (s[|s| - 1] as int - '0' as int)
  }

  lemma {:induction false} NumOfPad(n: nat, k: nat)
    requires n < Pow10(k)
    ensures Num(Pad(n, k)) == n
  {
    if k == 0 {
    } else {
      NumOfPad(n / 10, k - 1);
      assert Pad(n, k)[..k - 1] == Pad(n / 10, k - 1);
    }
  }

  lemma {:induction false} PadOfNum(s: string)
    requires forall i :: 0 <= i < |s| ==> EsDigito(s[i])
    ensures Pad(Num(s), |s|) == s && Num(s) < Pow10(|s|)
  {
    if |s| == 0 {
    } else {
      PadOfNum(s[..|s| - 1]);
    }
  }

  /** The order of strings: by code unit at the first difference. */
  predicate MenorQue(a: string, b: string) {
    if |a| == 0 then |b| > 0
    else |b| > 0 && (a[0] < b[0] || (a[0] == b[0] && MenorQue(a[1..], b[1..])))
  }

  lemma {:induction false} MenorQueConcat(a: string, b: string, c: string, d: string)
    requires |a| == |b|
    ensures MenorQue(a + c, b + d) <==> MenorQue(a, b) || (a == b && MenorQue(c, d))
  {
    if |a| == 0 {
      assert a + c == c && b + d == d;
    } else {
      assert (a + c)[1..] == a[1..] + c && (b + d)[1..] == b[1..] + d;
      MenorQueConcat(a[1..], b[1..], c, d);
      assert a == [a[0]] + a[1..] && b == [b[0]] + b[1..];
    }
  }

  lemma {:induction false} PadIsOrdered(a: nat, b: nat, k: nat)
    requires a < Pow10(k) && b < Pow10(k)
    ensures MenorQue(Pad(a, k), Pad(b, k)) <==> a < b
    ensures Pad(a, k) == Pad(b, k) <==> a == b
  {
    if k == 0 {
    } else {
      PadIsOrdered(a / 10, b / 10, k - 1);
      MenorQueConcat(Pad(a / 10, k - 1), Pad(b / 10, k - 1), [Digito(a % 10)], [Digito(b % 10)]);
    }
    NumOfPad(a, k);
    NumOfPad(b, k);
  }
}
