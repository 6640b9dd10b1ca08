/**
 * The attendance service: records keyed by id, at most one per employee and
 * date, with the worked time computed from the clock-in and clock-out times.
 * Times are counted in minutes; the service's division by 3600 and rounding
 * to two decimals are not modelled.
 */
module Frequencias {
  import opened Wrappers
  import opened Text
  import opened Lists
  import opened Sorting
  import opened Dates
  import opened FrequenciaModel
  import Funcionarios

  // ---------------------------------------------------------------------------
  // Worked time
  // ---------------------------------------------------------------------------

  /** One `%H` or `%M` field of `strptime`: one or two ASCII digits, at most `max`. */
  function ClockField(d: string, max: nat): (r: Option<nat>)
    ensures r.Some? ==> 1 <= |d| <= 2 && AllDigits(d) && r.value == DigitsValue(d) <= max
    ensures r.None? ==> !(1 <= |d| <= 2 && AllDigits(d)) || DigitsValue(d) > max
  {
    if 1 <= |d| <= 2 && AllDigits(d) && DigitsValue(d) <= max then Some(DigitsValue(d)) else None
  }

  /** The string is hour field, colon at position i, minute field, and nothing else. */
  predicate ClockAt(s: string, i: nat) {
    i < |s| && s[i] == ':' && ClockField(s[..i], 23).Some? && ClockField(s[i + 1..], 59).Some?
  }

  /**
   * `datetime.strptime(s, "%H:%M")` as minutes since midnight: an hour of
   * one or two digits up to 23, a colon, a minute of one or two digits up to
   * 59, and no further text.
   */
  function ParseClock(s: string): (r: Option<nat>)
    ensures r.Some? <==> ClockAt(s, 1) || ClockAt(s, 2)
    ensures r.Some? ==> r.value < 1440
    ensures ClockAt(s, 1) ==> r == Some(60 * DigitsValue(s[..1]) + DigitsValue(s[2..]))
    ensures ClockAt(s, 2) ==> r == Some(60 * DigitsValue(s[..2]) + DigitsValue(s[3..]))
  {
    var i := if |s| > 1 && s[1] == ':' then 1 else 2;
    if i < |s| && s[i] == ':' then
      match (ClockField(s[..i], 23), ClockField(s[i + 1..], 59))
      case (Some(h), Some(m)) => Some(60 * h + m)
      case _ => None
    else None
  }

  /** `HH:MM` text of a time of day. */
  function ClockText(h: nat, m: nat): string {
    Pad2(h) + ":" + Pad2(m)
  }

  /** Zero-padded times parse back to the time they show. */
  lemma ParseClockText(h: nat, m: nat)
    requires h < 24 && m < 60
    ensures ParseClock(ClockText(h, m)) == Some(60 * h + m)
  {
    var s := ClockText(h, m);
    assert s[..2] == Pad2(h) && s[3..] == Pad2(m) && s[2] == ':';
    Pad2Value(h);
    Pad2Value(m);
  }

  /** Hours beyond 23 and minutes beyond 59 do not parse, though the field pattern admits them. */
  lemma ParseClockRange()
    ensures ParseClock("24:00").None? && ParseClock("12:60").None? && ParseClock("25:00").None?
  {
    assert "24:00"[..2] == "24" && "12:60"[3..] == "60" && "25:00"[..2] == "25";
    assert DigitsValue("24") == 24 by { assert "24"[..1] == "2"; }
    assert DigitsValue("25") == 25 by { assert "25"[..1] == "2"; }
    assert DigitsValue("60") == 60 by { assert "60"[..1] == "6"; }
  }

  /**
   * `_calcular_horas` in minutes: nothing when a time is missing, empty or
   * unparseable; otherwise clock-out minus clock-in, negative when clock-out
   * is earlier (no wrap past midnight).
   */
  function CalcularHoras(entrada: Option<string>, saida: Option<string>): (r: Option<int>)
    ensures r.Some? <==> entrada.Some? && saida.Some?
                         && ParseClock(entrada.value).Some? && ParseClock(saida.value).Some?
    ensures r.Some? ==> -1440 < r.value < 1440
                        && r.value == ParseClock(saida.value).value - ParseClock(entrada.value).value
  {
    if !Truthy(entrada) || !Truthy(saida) then None
    else
      match (ParseClock(entrada.value), ParseClock(saida.value))
      case (Some(e), Some(s)) => Some(s as int - e as int)
      case _ => None
  }

  /** Worked time between two `HH:MM` times, negative for a clock-out before the clock-in. */
  lemma CalcularHorasOfText(h1: nat, m1: nat, h2: nat, m2: nat)
    requires h1 < 24 && m1 < 60 && h2 < 24 && m2 < 60
    ensures CalcularHoras(Some(ClockText(h1, m1)), Some(ClockText(h2, m2)))
            == Some((60 * h2 + m2) - (60 * h1 + m1))
    ensures 60 * h2 + m2 < 60 * h1 + m1 ==> CalcularHoras(Some(ClockText(h1, m1)), Some(ClockText(h2, m2))).value < 0
  {
    ParseClockText(h1, m1);
    ParseClockText(h2, m2);
  }

  // ---------------------------------------------------------------------------
  // Queries
  // ---------------------------------------------------------------------------

  /** The `to_list` length of the listing query. */
  const ListLimit := 5000

  /** A MongoDB filter on employee and date. */
  datatype Query = Query(funcionarioId: Option<string>, gte: Option<string>, lte: Option<string>)

  /** The filter `get_all` builds from its optional arguments. */
  function QueryFor(inicio: Option<string>, fim: Option<string>, funcionarioId: Option<string>): Query {
    var fid := if Truthy(funcionarioId) then funcionarioId else None;
    if Truthy(inicio) && Truthy(fim) then Query(fid, inicio, fim)
    else if Truthy(inicio) then Query(fid, inicio, None)
    else if Truthy(fim) then Query(fid, None, fim)
    else Query(fid, None, None)
  }

  predicate Matches(r: RegistroFrequencia, q: Query) {
    (q.funcionarioId.Some? ==> r.funcionarioId == q.funcionarioId.value)
    && (q.gte.Some? ==> LexLe(q.gte.value, r.data))
    && (q.lte.Some? ==> LexLe(r.data, q.lte.value))
  }

  /** The selection stated per argument: each given bound and employee constrains, each absent one does not. */
  predicate Selected(r: RegistroFrequencia, inicio: Option<string>, fim: Option<string>, funcionarioId: Option<string>) {
    (Truthy(funcionarioId) ==> r.funcionarioId == funcionarioId.value)
    && (Truthy(inicio) ==> LexLe(inicio.value, r.data))
    && (Truthy(fim) ==> LexLe(r.data, fim.value))
  }

  lemma QueryForSelects(r: RegistroFrequencia, inicio: Option<string>, fim: Option<string>, funcionarioId: Option<string>)
    ensures Matches(r, QueryFor(inicio, fim, funcionarioId)) <==> Selected(r, inicio, fim, funcionarioId)
  {
  }

  function DataKey(r: RegistroFrequencia): string {
    r.data
  }

  /** The listing query: filter, sort by `data` descending, at most ListLimit records. */
  function ListRegistros(rows: seq<RegistroFrequencia>, inicio: Option<string>, fim: Option<string>,
                         funcionarioId: Option<string>): (r: seq<RegistroFrequencia>)
    ensures forall k :: 0 <= k < |r| ==> r[k] in rows && Selected(r[k], inicio, fim, funcionarioId)
    ensures SortedBy(r, DataKey, true)
    ensures |r| <= ListLimit
    ensures var q := QueryFor(inicio, fim, funcionarioId);
            |Filter(rows, x => Matches(x, q))| <= ListLimit ==> multiset(r) == multiset(Filter(rows, x => Matches(x, q)))
    ensures var q := QueryFor(inicio, fim, funcionarioId);
            var m := Filter(rows, x => Matches(x, q));
            |r| == (if |m| < ListLimit then |m| else ListLimit) && FirstInOrder(r, m, DataKey, true)
  {
    var q := QueryFor(inicio, fim, funcionarioId);
    var matching := Filter(rows, x => Matches(x, q));
    var sorted := SortBy(matching, DataKey, true);
    var r := Take(sorted, ListLimit);
    TakeSortByFirst(matching, ListLimit, DataKey, true);
    forall k | 0 <= k < |r|
      ensures r[k] in rows && Selected(r[k], inicio, fim, funcionarioId)
    {
      assert r[k] == sorted[k];
      assert sorted[k] in multiset(matching);
      QueryForSelects(r[k], inicio, fim, funcionarioId);
    }
    r
  }

  /** Every selected record is listed when no more than ListLimit are selected. */
  lemma ListRegistrosComplete(rows: seq<RegistroFrequencia>, inicio: Option<string>, fim: Option<string>,
                              funcionarioId: Option<string>, i: nat)
    requires i < |rows| && Selected(rows[i], inicio, fim, funcionarioId)
    requires |Filter(rows, x => Matches(x, QueryFor(inicio, fim, funcionarioId)))| <= ListLimit
    ensures rows[i] in ListRegistros(rows, inicio, fim, funcionarioId)
  {
    var q := QueryFor(inicio, fim, funcionarioId);
    QueryForSelects(rows[i], inicio, fim, funcionarioId);
    FilterKeeps(rows, x => Matches(x, q), i);
    assert rows[i] in multiset(ListRegistros(rows, inicio, fim, funcionarioId));
  }

  // ---------------------------------------------------------------------------
  // Month bounds
  // ---------------------------------------------------------------------------

  /** The bounds `get_by_funcionario_mes` builds: day 1 of the next month as the inclusive end, except in December. */
  function MesBoundsAsWritten(ano: int, mes: int): (string, string) {
    (IsoDate(ano, mes, 1), if mes == 12 then IsoDate(ano, 12, 31) else IsoDate(ano, mes + 1, 1))
  }

  /** The bounds the code means to build: day 1 through the last day of the month. */
  function MesBounds(ano: int, mes: int): (string, string) {
    (IsoDate(ano, mes, 1), IsoDate(ano, mes, if 1 <= mes <= 12 then LastDay(ano, mes) else 31))
  }

  /** Both bounds are non-empty text, so the query applies both. */
  lemma MesBoundsGiven(ano: int, mes: int)
    ensures Truthy(Some(MesBounds(ano, mes).0)) && Truthy(Some(MesBounds(ano, mes).1))
  {
    var b := MesBounds(ano, mes);
    assert b.0[|IntToString(ano)|] == '-';
    assert b.1[|IntToString(ano)|] == '-';
  }

  predicate Within(data: string, bounds: (string, string)) {
    LexLe(bounds.0, data) && LexLe(data, bounds.1)
  }

  /** A record of the employee (any employee when the id is empty) dated within the bounds. */
  predicate InMes(r: RegistroFrequencia, funcionarioId: string, bounds: (string, string)) {
    Within(r.data, bounds) && (funcionarioId != "" ==> r.funcionarioId == funcionarioId)
  }

  /** The as-written bounds are non-empty text as well. */
  lemma MesBoundsAsWrittenGiven(ano: int, mes: int)
    ensures Truthy(Some(MesBoundsAsWritten(ano, mes).0)) && Truthy(Some(MesBoundsAsWritten(ano, mes).1))
  {
    var b := MesBoundsAsWritten(ano, mes);
    assert b.0[|IntToString(ano)|] == '-';
    assert b.1[|IntToString(ano)|] == '-';
  }

  /**
   * The month listing `get_by_funcionario_mes` delegates to `get_all`: the
   * employee's records within both bounds, newest first, the first ListLimit
   * of them.
   */
  function ListMes(rows: seq<RegistroFrequencia>, funcionarioId: string, bounds: (string, string)): (r: seq<RegistroFrequencia>)
    requires Truthy(Some(bounds.0)) && Truthy(Some(bounds.1))
    ensures forall k :: 0 <= k < |r| ==> r[k] in rows && InMes(r[k], funcionarioId, bounds)
    ensures SortedBy(r, DataKey, true)
    ensures var m := Filter(rows, x => InMes(x, funcionarioId, bounds));
      |r| == (if |m| < ListLimit then |m| else ListLimit) && FirstInOrder(r, m, DataKey, true)
      && (|m| <= ListLimit ==> multiset(r) == multiset(m))
  {
    var q := QueryFor(Some(bounds.0), Some(bounds.1), Some(funcionarioId));
    var r := ListRegistros(rows, Some(bounds.0), Some(bounds.1), Some(funcionarioId));
    forall x
      ensures Matches(x, q) == InMes(x, funcionarioId, bounds)
    {
      QueryForSelects(x, Some(bounds.0), Some(bounds.1), Some(funcionarioId));
    }
    FilterSame(rows, x => Matches(x, q), x => InMes(x, funcionarioId, bounds));
    r
  }

  /** As written, the first day of the following month falls inside the range of months 1 to 11. */
  lemma MesAsWrittenSelects(ano: int, mes: int, y: int, m: int, d: int)
    requires 1000 <= ano <= 9999 && 1 <= mes <= 12 && ValidDate(y, m, d)
    ensures Within(IsoDate(y, m, d), MesBoundsAsWritten(ano, mes))
            <==> (y == ano && m == mes) || (mes < 12 && y == ano && m == mes + 1 && d == 1)
  {
    var (s, e) := MesBoundsAsWritten(ano, mes);
    IsoDateOrder(ano, mes, 1, y, m, d);
    if mes == 12 {
      IsoDateOrder(y, m, d, ano, 12, 31);
    } else {
      IsoDateOrder(y, m, d, ano, mes + 1, 1);
    }
  }

  lemma FebruaryFirstText()
    ensures IsoDate(2025, 2, 1) == "2025-02-01"
  {
    assert NatToString(20) == NatToString(2) + "0" == "20";
    assert NatToString(202) == NatToString(20) + "2" == "202";
    assert NatToString(2025) == NatToString(202) + "5" == "2025";
    assert MonthDayText(2, 1) == "-02-01";
  }

  /** A record dated 1 February 2025 is returned for January 2025. */
  lemma MesAsWrittenLeaks()
    ensures Within("2025-02-01", MesBoundsAsWritten(2025, 1))
  {
    MesAsWrittenSelects(2025, 1, 2025, 2, 1);
    FebruaryFirstText();
  }

  /** The corrected bounds select exactly the dates of the month. */
  lemma MesBoundsExact(ano: int, mes: int, y: int, m: int, d: int)
    requires 1000 <= ano <= 9999 && 1 <= mes <= 12 && ValidDate(y, m, d)
    ensures Within(IsoDate(y, m, d), MesBounds(ano, mes)) <==> y == ano && m == mes
  {
    IsoDateOrder(ano, mes, 1, y, m, d);
    IsoDateOrder(y, m, d, ano, mes, LastDay(ano, mes));
  }

  // ---------------------------------------------------------------------------
  // Store
  // ---------------------------------------------------------------------------

  predicate UniqueIds(rows: seq<RegistroFrequencia>) {
    forall i, j :: 0 <= i < j < |rows| ==> rows[i].id != rows[j].id
  }

  /** At most one record per employee and date. */
  predicate UniquePairs(rows: seq<RegistroFrequencia>) {
    forall i, j :: 0 <= i < j < |rows| ==>
      rows[i].funcionarioId != rows[j].funcionarioId || rows[i].data != rows[j].data
  }

  predicate PairTaken(rows: seq<RegistroFrequencia>, funcionarioId: string, data: string) {
    exists i :: 0 <= i < |rows| && rows[i].funcionarioId == funcionarioId && rows[i].data == data
  }

  function IndexOfId(rows: seq<RegistroFrequencia>, id: string): (r: int)
    ensures -1 <= r < |rows|
    ensures r >= 0 ==> rows[r].id == id && forall i :: 0 <= i < r ==> rows[i].id != id
    ensures r == -1 <==> forall i :: 0 <= i < |rows| ==> rows[i].id != id
  {
    if rows == [] then -1
    else if rows[0].id == id then 0
    else
      var r := IndexOfId(rows[1..], id);
      assert forall i :: 1 <= i < |rows| ==> rows[i] == rows[1..][i - 1];
      if r == -1 then -1 else r + 1
  }

  function NotFoundMessage(funcionarioId: string): string {
    "Funcionário " + funcionarioId + " não encontrado"
  }

  function DuplicateMessage(nome: string, data: string): string {
    "Já existe registro de frequência para " + nome + " em " + data
  }

  /** The stored record for a create request: the employee's name and the computed hours added. */
  function FromCreate(c: RegistroFrequenciaCreate, id: string, nome: string): RegistroFrequencia {
    RegistroFrequencia(id, c.funcionarioId, c.data, c.tipoDia, c.horaEntrada, c.horaSaida, c.observacao,
                       Some(nome), CalcularHoras(c.horaEntrada, c.horaSaida))
  }

  /** The update request supplies no field. */
  predicate NoFields(u: RegistroFrequenciaUpdate) {
    u.horaEntrada.None? && u.horaSaida.None? && u.tipoDia.None? && u.observacao.None?
  }

  /** `$set` of the supplied fields, with the hours recomputed when a time is supplied. */
  function ApplyUpdate(f: RegistroFrequencia, u: RegistroFrequenciaUpdate): RegistroFrequencia {
    var entrada := if u.horaEntrada.Some? then u.horaEntrada else f.horaEntrada;
    var saida := if u.horaSaida.Some? then u.horaSaida else f.horaSaida;
    f.(horaEntrada := entrada, horaSaida := saida,
       tipoDia := u.tipoDia.GetOr(f.tipoDia),
       observacao := if u.observacao.Some? then u.observacao else f.observacao,
       totalHoras := if u.horaEntrada.Some? || u.horaSaida.Some? then CalcularHoras(entrada, saida) else f.totalHoras)
  }

  /** An update never touches id, employee, date or name; hours change only through the times. */
  lemma ApplyUpdateFields(f: RegistroFrequencia, u: RegistroFrequenciaUpdate)
    ensures var g := ApplyUpdate(f, u);
      g.id == f.id && g.funcionarioId == f.funcionarioId && g.data == f.data && g.nome == f.nome
      && (u.horaEntrada.None? && u.horaSaida.None? ==> g.totalHoras == f.totalHoras)
      && (u.horaEntrada.Some? || u.horaSaida.Some? ==> g.totalHoras == CalcularHoras(g.horaEntrada, g.horaSaida))
      && g.horaEntrada == (if u.horaEntrada.Some? then u.horaEntrada else f.horaEntrada)
      && g.horaSaida == (if u.horaSaida.Some? then u.horaSaida else f.horaSaida)
  {
  }

  /** A supplied clock-out alone is combined with the stored clock-in. */
  lemma UpdateMergesStoredTime(f: RegistroFrequencia, h1: nat, m1: nat, h2: nat, m2: nat)
    requires h1 < 24 && m1 < 60 && h2 < 24 && m2 < 60
    requires f.horaEntrada == Some(ClockText(h1, m1))
    ensures ApplyUpdate(f, RegistroFrequenciaUpdate(None, Some(ClockText(h2, m2)), None, None)).totalHoras
            == Some((60 * h2 + m2) - (60 * h1 + m1))
  {
    CalcularHorasOfText(h1, m1, h2, m2);
  }

  class FrequenciaService {
    const funcionarios: Funcionarios.FuncionarioService
    var registros: seq<RegistroFrequencia>

    predicate Valid()
      reads this
    {
      UniqueIds(registros) && UniquePairs(registros)
    }

    constructor (funcionarios: Funcionarios.FuncionarioService)
      ensures Valid() && registros == [] && this.funcionarios == funcionarios
    {
      this.funcionarios := funcionarios;
      registros := [];
    }

    /** `get_by_id`. */
    function GetById(id: string): (r: Option<RegistroFrequencia>)
      reads this
      ensures r.Some? ==> r.value in registros && r.value.id == id
      ensures r.None? <==> forall i :: 0 <= i < |registros| ==> registros[i].id != id
    {
      var i := IndexOfId(registros, id);
      if i < 0 then None else Some(registros[i])
    }

    /** `get_all`. */
    function GetAll(inicio: Option<string>, fim: Option<string>, funcionarioId: Option<string>): (r: seq<RegistroFrequencia>)
      reads this
      ensures forall k :: 0 <= k < |r| ==> r[k] in registros && Selected(r[k], inicio, fim, funcionarioId)
      ensures SortedBy(r, DataKey, true) && |r| <= ListLimit
      ensures var q := QueryFor(inicio, fim, funcionarioId);
              var m := Filter(registros, x => Matches(x, q));
              |r| == (if |m| < ListLimit then |m| else ListLimit) && FirstInOrder(r, m, DataKey, true)
    {
      ListRegistros(registros, inicio, fim, funcionarioId)
    }

    /**
     * `get_by_funcionario_mes` as written: the month runs from day 1 to day 1
     * of the next month included (to the 31st in December).
     */
    function GetByFuncionarioMesAsWritten(funcionarioId: string, ano: int, mes: int): (r: seq<RegistroFrequencia>)
      reads this
      ensures forall k :: 0 <= k < |r| ==> r[k] in registros && InMes(r[k], funcionarioId, MesBoundsAsWritten(ano, mes))
      ensures SortedBy(r, DataKey, true)
      ensures var m := Filter(registros, x => InMes(x, funcionarioId, MesBoundsAsWritten(ano, mes)));
        |r| == (if |m| < ListLimit then |m| else ListLimit) && FirstInOrder(r, m, DataKey, true)
        && (|m| <= ListLimit ==> multiset(r) == multiset(m))
    {
      MesBoundsAsWrittenGiven(ano, mes);
      ListMes(registros, funcionarioId, MesBoundsAsWritten(ano, mes))
    }

    /** `get_by_funcionario_mes` with the end bound on the last day of the month. */
    function GetByFuncionarioMes(funcionarioId: string, ano: int, mes: int): (r: seq<RegistroFrequencia>)
      reads this
      ensures forall k :: 0 <= k < |r| ==> r[k] in registros && InMes(r[k], funcionarioId, MesBounds(ano, mes))
      ensures SortedBy(r, DataKey, true)
      ensures var m := Filter(registros, x => InMes(x, funcionarioId, MesBounds(ano, mes)));
        |r| == (if |m| < ListLimit then |m| else ListLimit) && FirstInOrder(r, m, DataKey, true)
        && (|m| <= ListLimit ==> multiset(r) == multiset(m))
    {
      MesBoundsGiven(ano, mes);
      ListMes(registros, funcionarioId, MesBounds(ano, mes))
    }

    /**
     * As written, the January listing of an employee returns the record of
     * 1 February 2025 whenever the matches fit the limit; the corrected one never does.
     */
    lemma AsWrittenReturnsNextMonthFirst(funcionarioId: string, i: nat)
      requires i < |registros| && registros[i].funcionarioId == funcionarioId && registros[i].data == "2025-02-01"
      requires |Filter(registros, x => InMes(x, funcionarioId, MesBoundsAsWritten(2025, 1)))| <= ListLimit
      ensures registros[i] in GetByFuncionarioMesAsWritten(funcionarioId, 2025, 1)
      ensures registros[i] !in GetByFuncionarioMes(funcionarioId, 2025, 1)
    {
      MesAsWrittenLeaks();
      var m := Filter(registros, x => InMes(x, funcionarioId, MesBoundsAsWritten(2025, 1)));
      assert InMes(registros[i], funcionarioId, MesBoundsAsWritten(2025, 1));
      FilterKeeps(registros, x => InMes(x, funcionarioId, MesBoundsAsWritten(2025, 1)), i);
      assert registros[i] in multiset(GetByFuncionarioMesAsWritten(funcionarioId, 2025, 1));
      FebruaryFirstText();
      MesBoundsExact(2025, 1, 2025, 2, 1);
    }

    /**
     * `create`: refuses an unknown employee, then a second record for the
     * same employee and date; otherwise stores the record under `newId`.
     */
    method Create(data: RegistroFrequenciaCreate, newId: string) returns (r: Result<RegistroFrequencia, string>)
      requires Valid()
      requires forall i :: 0 <= i < |registros| ==> registros[i].id != newId
      modifies this
      ensures Valid()
      ensures funcionarios.GetById(data.funcionarioId).None?
              ==> r == Err(NotFoundMessage(data.funcionarioId)) && registros == old(registros)
      ensures funcionarios.GetById(data.funcionarioId).Some? && PairTaken(old(registros), data.funcionarioId, data.data)
              ==> r == Err(DuplicateMessage(funcionarios.GetById(data.funcionarioId).value.nome, data.data))
                  && registros == old(registros)
      ensures funcionarios.GetById(data.funcionarioId).Some? && !PairTaken(old(registros), data.funcionarioId, data.data)
              ==> var f := FromCreate(data, newId, funcionarios.GetById(data.funcionarioId).value.nome);
                  r == Ok(f) && registros == old(registros) + [f]
    {
      var funcionario := funcionarios.GetById(data.funcionarioId);
      if funcionario.None? {
        return Err(NotFoundMessage(data.funcionarioId));
      }
      if PairTaken(registros, data.funcionarioId, data.data) {
        return Err(DuplicateMessage(funcionario.value.nome, data.data));
      }
      var registro := FromCreate(data, newId, funcionario.value.nome);
      registros := registros + [registro];
      r := Ok(registro);
    }

    /**
     * `update`: with no field supplied it is a lookup; otherwise the supplied
     * fields are set, and the result is the updated record when it changed
     * and None when nothing was modified (an unknown id included).
     */
    method Update(id: string, u: RegistroFrequenciaUpdate) returns (r: Option<RegistroFrequencia>)
      requires Valid()
      modifies this
      ensures Valid() && |registros| == |old(registros)|
      ensures NoFields(u) ==> r == old(GetById(id)) && registros == old(registros)
      ensures !NoFields(u) ==>
        var i := IndexOfId(old(registros), id);
        if i < 0 || ApplyUpdate(old(registros)[i], u) == old(registros)[i] then r.None? && registros == old(registros)
        else r == Some(ApplyUpdate(old(registros)[i], u)) && registros == old(registros)[i := ApplyUpdate(old(registros)[i], u)]
    {
      if NoFields(u) {
        return GetById(id);
      }
      var i := IndexOfId(registros, id);
      if i < 0 {
        return None;
      }
      var updated := ApplyUpdate(registros[i], u);
      if updated == registros[i] {
        return None;
      }
      registros := registros[i := updated];
      r := Some(updated);
    }

    /** `delete`: removes the record with this id; False when there is none. */
    method Delete(id: string) returns (deleted: bool)
      requires Valid()
      modifies this
      ensures Valid()
      ensures var i := IndexOfId(old(registros), id);
        deleted == (i >= 0)
        && registros == (if deleted then old(registros)[..i] + old(registros)[i + 1..] else old(registros))
    {
      var i := IndexOfId(registros, id);
      if i < 0 {
        return false;
      }
      registros := registros[..i] + registros[i + 1..];
      deleted := true;
    }
  }
}
