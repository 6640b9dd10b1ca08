/**
 * Calendar dates as the services write them: `YYYY-MM-DD` text built with
 * Python format strings, compared as strings by MongoDB's `$gte`/`$lte`.
 * For four-digit years and two-digit months and days, string order is
 * calendar order.
 */
module Dates {
  import opened Text

  /** Python's `f"{n:02d}"`: zero-padded to width two, the sign counting towards the width. */
  function Format02d(n: int): (r: string)
    ensures 0 <= n < 100 ==> r == Pad2(n) && |r| == 2
    ensures n < 0 ==> r == IntToString(n)
  {
    if n < 0 then IntToString(n) else Pad2(n)
  }

  /** `f"{ano}-{mes:02d}-{dia:02d}"`. */
  function IsoDate(ano: int, mes: int, dia: int): string {
    IntToString(ano) + MonthDayText(mes, dia)
  }

  /** The `-MM-DD` part. */
  function MonthDayText(mes: int, dia: int): string {
    "-" + Format02d(mes) + "-" + Format02d(dia)
  }

  /** Year, month and day in calendar order. */
  predicate DateLe(y1: int, m1: int, d1: int, y2: int, m2: int, d2: int) {
    y1 < y2 || (y1 == y2 && (m1 < m2 || (m1 == m2 && d1 <= d2)))
  }

  /** Components whose text has the fixed `YYYY-MM-DD` width. */
  predicate FixedWidth(ano: int, mes: int, dia: int) {
    1000 <= ano <= 9999 && 0 <= mes < 100 && 0 <= dia < 100
  }

  predicate IsLeap(ano: int) {
    (ano % 4 == 0 && ano % 100 != 0) || ano % 400 == 0
  }

  /** The number of days of a month of the Gregorian calendar. */
  function LastDay(ano: int, mes: int): (r: int)
    requires 1 <= mes <= 12
    ensures 28 <= r <= 31
    ensures mes == 2 ==> (r == 29 <==> IsLeap(ano))
  {
    if mes == 2 then (if IsLeap(ano) then 29 else 28)
    else if mes == 4 || mes == 6 || mes == 9 || mes == 11 then 30
    else 31
  }

  /** A day that exists in the calendar. */
  predicate ValidDate(ano: int, mes: int, dia: int) {
    1000 <= ano <= 9999 && 1 <= mes <= 12 && 1 <= dia <= LastDay(ano, mes)
  }

  lemma DigitCharOrder(a: nat, b: nat)
    requires a < 10 && b < 10
    ensures DigitChar(a) < DigitChar(b) <==> a < b
    ensures DigitChar(a) == DigitChar(b) <==> a == b
  {
  }

  /** Two-digit text compares as the numbers do. */
  lemma Pad2Order(a: nat, b: nat)
    requires a < 100 && b < 100
    ensures LexLe(Pad2(a), Pad2(b)) <==> a <= b
    ensures Pad2(a) == Pad2(b) <==> a == b
  {
    var pa, pb := Pad2(a), Pad2(b);
    DigitCharOrder(a / 10, b / 10);
    DigitCharOrder(a % 10, b % 10);
    assert pa[1..] == [DigitChar(a % 10)] && pb[1..] == [DigitChar(b % 10)];
    assert LexLe(pa[1..], pb[1..]) <==> a % 10 <= b % 10;
    assert a <= b <==> a / 10 < b / 10 || (a / 10 == b / 10 && a % 10 <= b % 10);
    assert pa == pb ==> pa[0] == pb[0] && pa[1] == pb[1];
  }

  /** Two-digit text reads back as its number. */
  lemma Pad2Value(n: nat)
    requires n < 100
    ensures DigitsValue(Pad2(n)) == n
  {
    var p := Pad2(n);
    var hi, lo := DigitChar(n / 10), DigitChar(n % 10);
    assert p == [hi, lo];
    assert p[..1] == [hi] && p[1] == lo;
    assert [hi][..0] == [];
    assert DigitsValue([hi]) == DigitValue(hi) == n / 10;
    assert DigitValue(lo) == n % 10;
    assert DigitsValue(p) == DigitsValue(p[..1]) * 10 + DigitValue(p[1]);
  }

  /** A four-digit year is the text of its two halves. */
  lemma YearHalves(ano: int)
    requires 1000 <= ano <= 9999
    ensures IntToString(ano) == Pad2(ano / 100) + Pad2(ano % 100)
  {
    var n: nat := ano;
    assert NatToString(n) == NatToString(n / 10) + [DigitChar(n % 10)];
    assert NatToString(n / 10) == NatToString(n / 100) + [DigitChar(n / 10 % 10)];
    assert NatToString(n / 100) == NatToString(n / 1000) + [DigitChar(n / 100 % 10)];
    assert NatToString(n / 1000) == [DigitChar(n / 1000)];
    assert n / 100 / 10 == n / 1000 && n / 10 / 10 == n / 100 && n / 10 % 10 == n % 100 / 10;
  }

  /** Four-digit years compare as text as they do as numbers. */
  lemma YearOrder(a: int, b: int)
    requires 1000 <= a <= 9999 && 1000 <= b <= 9999
    ensures LexLe(IntToString(a), IntToString(b)) <==> a <= b
    ensures IntToString(a) == IntToString(b) <==> a == b
    ensures |IntToString(a)| == 4
  {
    YearHalves(a);
    YearHalves(b);
    Pad2Order(a / 100, b / 100);
    Pad2Order(a % 100, b % 100);
    LexLeSplit(Pad2(a / 100), Pad2(a % 100), Pad2(b / 100), Pad2(b % 100));
    if Pad2(a / 100) + Pad2(a % 100) == Pad2(b / 100) + Pad2(b % 100) {
      assert (Pad2(a / 100) + Pad2(a % 100))[..2] == Pad2(a / 100);
      assert (Pad2(b / 100) + Pad2(b % 100))[..2] == Pad2(b / 100);
      assert (Pad2(a / 100) + Pad2(a % 100))[2..] == Pad2(a % 100);
      assert (Pad2(b / 100) + Pad2(b % 100))[2..] == Pad2(b % 100);
    }
  }

  /** The `-MM-DD` tail compares as month, then day. */
  lemma MonthDayOrder(m1: nat, d1: nat, m2: nat, d2: nat)
    requires m1 < 100 && d1 < 100 && m2 < 100 && d2 < 100
    ensures LexLe(MonthDayText(m1, d1), MonthDayText(m2, d2)) <==> m1 < m2 || (m1 == m2 && d1 <= d2)
    ensures MonthDayText(m1, d1) == MonthDayText(m2, d2) <==> m1 == m2 && d1 == d2
  {
    MonthDayTextSplit(m1, d1);
    MonthDayTextSplit(m2, d2);
    Pad2Order(m1, m2);
    Pad2Order(d1, d2);
    var u1, u2 := "-" + Pad2(d1), "-" + Pad2(d2);
    LexLeCommonPrefix("-", Pad2(d1), Pad2(d2));
    LexLeSplit(Pad2(m1), u1, Pad2(m2), u2);
    LexLeCommonPrefix("-", Pad2(m1) + u1, Pad2(m2) + u2);
  }

  /** The pieces of the `-MM-DD` tail. */
  lemma MonthDayTextSplit(m: nat, d: nat)
    requires m < 100 && d < 100
    ensures MonthDayText(m, d) == "-" + (Pad2(m) + ("-" + Pad2(d)))
    ensures MonthDayText(m, d)[1..3] == Pad2(m) && MonthDayText(m, d)[4..] == Pad2(d)
  {
    assert "-" + Pad2(m) + "-" + Pad2(d) == "-" + (Pad2(m) + ("-" + Pad2(d)));
  }

  /** For fixed-width components, `YYYY-MM-DD` string order is calendar order. */
  lemma IsoDateOrder(y1: int, m1: int, d1: int, y2: int, m2: int, d2: int)
    requires FixedWidth(y1, m1, d1) && FixedWidth(y2, m2, d2)
    ensures LexLe(IsoDate(y1, m1, d1), IsoDate(y2, m2, d2)) <==> DateLe(y1, m1, d1, y2, m2, d2)
  {
    YearOrder(y1, y2);
    MonthDayOrder(m1, d1, m2, d2);
    YearOrder(y2, y2);
    LexLeSplit(IntToString(y1), MonthDayText(m1, d1), IntToString(y2), MonthDayText(m2, d2));
  }
}
