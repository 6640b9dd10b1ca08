/**
 * The report service: an attendance report grouped per employee and a
 * general report of active employees per sector and hours in the period.
 * Hours are minutes (the service's `round(..., 2)` on hours is not modelled)
 * and the generation time is a parameter.
 */
module Relatorios {
  import opened Wrappers
  import opened Lists
  import opened FrequenciaModel
  import opened FuncionarioModel
  import Frequencias
  import Funcionarios

  datatype TipoRelatorio = Frequencia | Alimentacao | Materiais | Combustivel | Geral

  function TipoName(t: TipoRelatorio): string {
    match t
    case Frequencia => "frequencia"
    case Alimentacao => "alimentacao"
    case Materiais => "materiais"
    case Combustivel => "combustivel"
    case Geral => "geral"
  }

  datatype RelatorioRequest = RelatorioRequest(
    tipo: TipoRelatorio,
    dataInicio: string,
    dataFim: string,
    funcionarioId: Option<string>,
    setor: Option<string>)

  /** One row of `por_funcionario`. */
  datatype Resumo = Resumo(
    funcionarioId: string,
    nome: Option<string>,
    totalRegistros: nat,
    totalHoras: int,
    diasTrabalhados: nat)

  datatype Relatorio =
    | RelatorioFrequencia(dataInicio: string, dataFim: string, dados: seq<Resumo>,
                          totalRegistros: nat, totalHoras: int, totalFuncionarios: nat, geradoEm: string)
    | RelatorioGeral(dataInicio: string, dataFim: string, totalAtivos: nat, porSetor: Tally<string>,
                     registrosFrequencia: nat, totalHorasPeriodo: int, geradoEm: string)

  function NotImplementedMessage(t: TipoRelatorio): string {
    "Relatório do tipo '" + TipoName(t) + "' ainda não implementado"
  }

  // ---------------------------------------------------------------------------
  // Per-employee grouping
  // ---------------------------------------------------------------------------

  function Fid(r: RegistroFrequencia): string {
    r.funcionarioId
  }

  /** `r.total_horas or 0`. */
  function HorasOf(r: RegistroFrequencia): int {
    r.totalHoras.GetOr(0)
  }

  /** A worked day: both times present and non-empty. */
  predicate Trabalhado(r: RegistroFrequencia) {
    Truthy(r.horaEntrada) && Truthy(r.horaSaida)
  }

  function TotalHoras(s: seq<RegistroFrequencia>): int {
    SumOf(s, HorasOf)
  }

  /** The employee id of every record, in order. */
  function Ids(s: seq<RegistroFrequencia>): (r: seq<string>)
    ensures |r| == |s|
  {
    if s == [] then [] else Ids(s[..|s| - 1]) + [s[|s| - 1].funcionarioId]
  }

  lemma {:induction false} IdsAt(s: seq<RegistroFrequencia>, j: nat)
    requires j < |s|
    ensures Ids(s)[j] == s[j].funcionarioId
  {
    if j < |s| - 1 {
      IdsAt(s[..|s| - 1], j);
    }
  }

  lemma IdsSnoc(s: seq<RegistroFrequencia>, x: RegistroFrequencia)
    ensures Ids(s + [x]) == Ids(s) + [x.funcionarioId]
  {
    assert (s + [x])[..|s|] == s;
  }

  /** The hours of the records of one employee. */
  function HorasDe(s: seq<RegistroFrequencia>, id: string): int {
    if s == [] then 0 else HorasDe(s[..|s| - 1], id) + (if s[|s| - 1].funcionarioId == id then HorasOf(s[|s| - 1]) else 0)
  }

  /** The worked days of one employee. */
  function DiasDe(s: seq<RegistroFrequencia>, id: string): nat {
    if s == [] then 0 else DiasDe(s[..|s| - 1], id) + (if s[|s| - 1].funcionarioId == id && Trabalhado(s[|s| - 1]) then 1 else 0)
  }

  /** The name on the first record of one employee. */
  function NomeDe(s: seq<RegistroFrequencia>, id: string): Option<string> {
    if s == [] then None else if s[0].funcionarioId == id then s[0].nome else NomeDe(s[1..], id)
  }

  function GroupId(g: Resumo): string {
    g.funcionarioId
  }

  function RegistrosOf(g: Resumo): int {
    g.totalRegistros
  }

  function HorasOfGroup(g: Resumo): int {
    g.totalHoras
  }

  /** The row of one employee summarises exactly that employee's records. */
  predicate Summarizes(g: Resumo, s: seq<RegistroFrequencia>) {
    g.totalRegistros == Occurrences(s, Fid, g.funcionarioId)
    && g.totalHoras == HorasDe(s, g.funcionarioId)
    && g.diasTrabalhados == DiasDe(s, g.funcionarioId)
    && g.nome == NomeDe(s, g.funcionarioId)
  }

  /** The row keys are the employee ids in first-seen order. */
  predicate KeysMatch(gs: seq<Resumo>, s: seq<RegistroFrequencia>) {
    MapSeq(gs, GroupId) == Distinct(Ids(s))
  }

  predicate AllSummarize(gs: seq<Resumo>, s: seq<RegistroFrequencia>) {
    forall k :: 0 <= k < |gs| ==> Summarizes(gs[k], s)
  }

  /** The rows' record counts and hours add up to the whole list's. */
  predicate SumsMatch(gs: seq<Resumo>, s: seq<RegistroFrequencia>) {
    SumOf(gs, RegistrosOf) == |s| && SumOf(gs, HorasOfGroup) == TotalHoras(s)
  }

  /** One row per employee, in first-seen order, each summarising that employee. */
  predicate Groups(gs: seq<Resumo>, s: seq<RegistroFrequencia>) {
    KeysMatch(gs, s) && AllSummarize(gs, s) && SumsMatch(gs, s)
  }

  /** No row belongs to the employee. */
  predicate NoRow(gs: seq<Resumo>, id: string) {
    forall i :: 0 <= i < |gs| ==> gs[i].funcionarioId != id
  }

  function IndexOfGroup(gs: seq<Resumo>, id: string): (r: int)
    ensures -1 <= r < |gs|
    ensures r >= 0 ==> gs[r].funcionarioId == id
    ensures r == -1 <==> NoRow(gs, id)
  {
    if gs == [] then -1
    else if gs[|gs| - 1].funcionarioId == id then |gs| - 1
    else IndexOfGroup(gs[..|gs| - 1], id)
  }

  /** Counts one record into its row. */
  function CountInto(g: Resumo, r: RegistroFrequencia): Resumo {
    g.(totalRegistros := g.totalRegistros + 1,
       totalHoras := g.totalHoras + HorasOf(r),
       diasTrabalhados := g.diasTrabalhados + (if Trabalhado(r) then 1 else 0))
  }

  /** The row a record of a new employee opens. */
  function NewRow(x: RegistroFrequencia): Resumo {
    CountInto(Resumo(x.funcionarioId, x.nome, 0, 0, 0), x)
  }

  /** One pass of the loop body: open a row for a new employee, then count the record into it. */
  function AddRegistro(gs: seq<Resumo>, r: RegistroFrequencia): seq<Resumo> {
    var i := IndexOfGroup(gs, r.funcionarioId);
    if i < 0 then gs + [NewRow(r)]
    else gs[i := CountInto(gs[i], r)]
  }

  /** A record of another employee leaves a name as it is. */
  lemma {:induction false} NomeDeOther(s: seq<RegistroFrequencia>, x: RegistroFrequencia, id: string)
    requires x.funcionarioId != id
    ensures NomeDe(s + [x], id) == NomeDe(s, id)
  {
    if s != [] {
      assert (s + [x])[1..] == s[1..] + [x];
      NomeDeOther(s[1..], x, id);
    }
  }

  /** The first record of an employee gives the name. */
  lemma {:induction false} NomeDeFirst(s: seq<RegistroFrequencia>, x: RegistroFrequencia)
    requires NoRecordOf(s, x.funcionarioId)
    ensures NomeDe(s + [x], x.funcionarioId) == x.nome
  {
    if s != [] {
      assert (s + [x])[1..] == s[1..] + [x];
      assert s[0].funcionarioId != x.funcionarioId;
      forall j | 0 <= j < |s[1..]|
        ensures s[1..][j].funcionarioId != x.funcionarioId
      {
        assert s[1..][j] == s[j + 1];
      }
      NomeDeFirst(s[1..], x);
    }
  }

  /** Later records of an employee keep the name of the first. */
  lemma {:induction false} NomeDeSeen(s: seq<RegistroFrequencia>, x: RegistroFrequencia, j: nat)
    requires j < |s| && s[j].funcionarioId == x.funcionarioId
    ensures NomeDe(s + [x], x.funcionarioId) == NomeDe(s, x.funcionarioId)
  {
    assert (s + [x])[1..] == s[1..] + [x];
    if j > 0 && s[0].funcionarioId != x.funcionarioId {
      NomeDeSeen(s[1..], x, j - 1);
    }
  }

  /** An employee has a row iff the employee is among the row keys. */
  lemma RowIffKey(gs: seq<Resumo>, keys: seq<string>, id: string)
    requires MapSeq(gs, GroupId) == keys
    ensures IndexOfGroup(gs, id) >= 0 <==> id in keys
  {
    var i := IndexOfGroup(gs, id);
    if i >= 0 {
      assert keys[i] == id;
    } else {
      assert forall k :: 0 <= k < |keys| ==> keys[k] == gs[k].funcionarioId != id;
    }
  }

  /** No record of `s` belongs to the employee. */
  predicate NoRecordOf(s: seq<RegistroFrequencia>, id: string) {
    forall j :: 0 <= j < |s| ==> s[j].funcionarioId != id
  }

  lemma {:induction false} NoRecordOfPrefix(s: seq<RegistroFrequencia>, id: string)
    requires s != [] && NoRecordOf(s, id)
    ensures NoRecordOf(s[..|s| - 1], id) && s[|s| - 1].funcionarioId != id
  {
    var p := s[..|s| - 1];
    forall j | 0 <= j < |p|
      ensures p[j].funcionarioId != id
    {
      assert p[j] == s[j];
    }
  }

  /** An employee id missing from the first-seen list has no record. */
  lemma AbsentHasNoRecord(s: seq<RegistroFrequencia>, id: string)
    requires id !in Distinct(Ids(s))
    ensures NoRecordOf(s, id)
  {
    forall j | 0 <= j < |s|
      ensures s[j].funcionarioId != id
    {
      DistinctCovers(Ids(s), j);
      IdsAt(s, j);
    }
  }

  /** The per-employee figures of a list with one more record. */
  lemma FiguresSnoc(s: seq<RegistroFrequencia>, x: RegistroFrequencia, id: string)
    ensures Occurrences(s + [x], Fid, id) == Occurrences(s, Fid, id) + (if x.funcionarioId == id then 1 else 0)
    ensures HorasDe(s + [x], id) == HorasDe(s, id) + (if x.funcionarioId == id then HorasOf(x) else 0)
    ensures DiasDe(s + [x], id) == DiasDe(s, id) + (if x.funcionarioId == id && Trabalhado(x) then 1 else 0)
    ensures TotalHoras(s + [x]) == TotalHoras(s) + HorasOf(x)
  {
    assert (s + [x])[..|s|] == s;
  }

  /** A new employee's id goes to the end of the first-seen list. */
  lemma NewKeys(gs: seq<Resumo>, s: seq<RegistroFrequencia>, x: RegistroFrequencia)
    requires KeysMatch(gs, s) && IndexOfGroup(gs, x.funcionarioId) < 0
    ensures KeysMatch(gs + [NewRow(x)], s + [x])
  {
    var id := x.funcionarioId;
    var m := Ids(s);
    RowIffKey(gs, Distinct(m), id);
    IdsSnoc(s, x);
    assert (m + [id])[..|m|] == m;
    assert Distinct(m + [id]) == Distinct(m) + [id];
    assert MapSeq(gs + [NewRow(x)], GroupId) == MapSeq(gs, GroupId) + [id];
  }

  lemma NewSums(gs: seq<Resumo>, s: seq<RegistroFrequencia>, x: RegistroFrequencia)
    requires SumsMatch(gs, s)
    ensures SumsMatch(gs + [NewRow(x)], s + [x])
  {
    assert (gs + [NewRow(x)])[..|gs|] == gs;
    FiguresSnoc(s, x, x.funcionarioId);
  }

  lemma NewSummaries(gs: seq<Resumo>, s: seq<RegistroFrequencia>, x: RegistroFrequencia)
    requires AllSummarize(gs, s) && NoRow(gs, x.funcionarioId) && NoRecordOf(s, x.funcionarioId)
    ensures AllSummarize(gs + [NewRow(x)], s + [x])
  {
    var id := x.funcionarioId;
    var r := gs + [NewRow(x)];
    assert forall j :: 0 <= j < |s| ==> Fid(s[j]) != id;
    OccurrencesAbsent(s, Fid, id);
    HorasDeAbsent(s, id);
    DiasDeAbsent(s, id);
    NomeDeFirst(s, x);
    FiguresSnoc(s, x, id);
    forall k | 0 <= k < |r|
      ensures Summarizes(r[k], s + [x])
    {
      if k < |gs| {
        assert r[k] == gs[k] && gs[k].funcionarioId != id;
        FiguresSnoc(s, x, gs[k].funcionarioId);
        NomeDeOther(s, x, gs[k].funcionarioId);
      }
    }
  }

  /** A record of an employee without a row opens a new row at the end. */
  lemma AddNewGroups(gs: seq<Resumo>, s: seq<RegistroFrequencia>, x: RegistroFrequencia)
    requires Groups(gs, s) && IndexOfGroup(gs, x.funcionarioId) < 0
    ensures Groups(AddRegistro(gs, x), s + [x])
  {
    RowIffKey(gs, Distinct(Ids(s)), x.funcionarioId);
    AbsentHasNoRecord(s, x.funcionarioId);
    NewKeys(gs, s, x);
    NewSums(gs, s, x);
    NewSummaries(gs, s, x);
  }

  /** An employee seen before leaves the first-seen list as it is. */
  lemma ExistingKeys(gs: seq<Resumo>, s: seq<RegistroFrequencia>, x: RegistroFrequencia, i: nat)
    requires KeysMatch(gs, s) && i < |gs| && gs[i].funcionarioId == x.funcionarioId
    ensures KeysMatch(gs[i := CountInto(gs[i], x)], s + [x])
  {
    var id := x.funcionarioId;
    var m := Ids(s);
    var r := gs[i := CountInto(gs[i], x)];
    assert MapSeq(gs, GroupId)[i] == id;
    IdsSnoc(s, x);
    assert (m + [id])[..|m|] == m;
    assert MapSeq(r, GroupId) == MapSeq(gs, GroupId) by {
      assert forall k :: 0 <= k < |r| ==> MapSeq(r, GroupId)[k] == MapSeq(gs, GroupId)[k];
    }
  }

  lemma ExistingSums(gs: seq<Resumo>, s: seq<RegistroFrequencia>, x: RegistroFrequencia, i: nat)
    requires SumsMatch(gs, s) && i < |gs|
    ensures SumsMatch(gs[i := CountInto(gs[i], x)], s + [x])
  {
    SumOfUpdate(gs, i, CountInto(gs[i], x), RegistrosOf);
    SumOfUpdate(gs, i, CountInto(gs[i], x), HorasOfGroup);
    FiguresSnoc(s, x, x.funcionarioId);
  }

  /** Rows keyed by distinct ids: only row `i` has the id of row `i`. */
  lemma OnlyRow(gs: seq<Resumo>, s: seq<RegistroFrequencia>, i: nat, k: nat)
    requires KeysMatch(gs, s) && i < |gs| && k < |gs| && k != i
    ensures gs[k].funcionarioId != gs[i].funcionarioId
  {
    assert MapSeq(gs, GroupId)[k] != MapSeq(gs, GroupId)[i];
  }

  lemma ExistingSummaries(gs: seq<Resumo>, s: seq<RegistroFrequencia>, x: RegistroFrequencia, i: nat)
    requires KeysMatch(gs, s) && AllSummarize(gs, s) && i < |gs| && gs[i].funcionarioId == x.funcionarioId
    ensures AllSummarize(gs[i := CountInto(gs[i], x)], s + [x])
  {
    var id := x.funcionarioId;
    var r := gs[i := CountInto(gs[i], x)];
    var m := Ids(s);
    assert MapSeq(gs, GroupId)[i] == id;
    DistinctWithin(m, id);
    var j :| 0 <= j < |m| && m[j] == id;
    IdsAt(s, j);
    NomeDeSeen(s, x, j);
    FiguresSnoc(s, x, id);
    forall k | 0 <= k < |r|
      ensures Summarizes(r[k], s + [x])
    {
      if k != i {
        OnlyRow(gs, s, i, k);
        FiguresSnoc(s, x, gs[k].funcionarioId);
        NomeDeOther(s, x, gs[k].funcionarioId);
      }
    }
  }

  /** A record of an employee with a row is counted into that row. */
  lemma AddExistingGroups(gs: seq<Resumo>, s: seq<RegistroFrequencia>, x: RegistroFrequencia)
    requires Groups(gs, s) && IndexOfGroup(gs, x.funcionarioId) >= 0
    ensures Groups(AddRegistro(gs, x), s + [x])
  {
    var i := IndexOfGroup(gs, x.funcionarioId);
    ExistingKeys(gs, s, x, i);
    ExistingSums(gs, s, x, i);
    ExistingSummaries(gs, s, x, i);
  }

  /** The rows of a prefix and one more record give the rows of the longer list. */
  lemma AddRegistroGroups(gs: seq<Resumo>, s: seq<RegistroFrequencia>, x: RegistroFrequencia)
    requires Groups(gs, s)
    ensures Groups(AddRegistro(gs, x), s + [x])
  {
    if IndexOfGroup(gs, x.funcionarioId) < 0 {
      AddNewGroups(gs, s, x);
    } else {
      AddExistingGroups(gs, s, x);
    }
  }

  lemma {:induction false} HorasDeAbsent(s: seq<RegistroFrequencia>, id: string)
    requires NoRecordOf(s, id)
    ensures HorasDe(s, id) == 0
  {
    if s != [] {
      NoRecordOfPrefix(s, id);
      HorasDeAbsent(s[..|s| - 1], id);
    }
  }

  lemma {:induction false} DiasDeAbsent(s: seq<RegistroFrequencia>, id: string)
    requires NoRecordOf(s, id)
    ensures DiasDe(s, id) == 0
  {
    if s != [] {
      NoRecordOfPrefix(s, id);
      DiasDeAbsent(s[..|s| - 1], id);
    }
  }

  /** `por_funcionario` after the loop over all records. */
  function Agrupar(s: seq<RegistroFrequencia>): seq<Resumo> {
    if s == [] then [] else AddRegistro(Agrupar(s[..|s| - 1]), s[|s| - 1])
  }

  /** The grouping has one row per employee, in first-seen order, each summarising that employee. */
  lemma {:induction false} AgruparGroups(s: seq<RegistroFrequencia>)
    ensures Groups(Agrupar(s), s)
  {
    if s != [] {
      AgruparGroups(s[..|s| - 1]);
      AddRegistroGroups(Agrupar(s[..|s| - 1]), s[..|s| - 1], s[|s| - 1]);
      assert s[..|s| - 1] + [s[|s| - 1]] == s;
    }
  }

  /** An employee's worked days never exceed the employee's records. */
  lemma {:induction false} DiasAtMostRegistros(s: seq<RegistroFrequencia>, id: string)
    ensures DiasDe(s, id) <= Occurrences(s, Fid, id)
  {
    if s != [] {
      DiasAtMostRegistros(s[..|s| - 1], id);
    }
  }

  /** One more record extends the grouping of a prefix by one loop pass. */
  lemma AgruparStep(s: seq<RegistroFrequencia>, k: nat)
    requires k < |s|
    ensures Agrupar(s[..k + 1]) == AddRegistro(Agrupar(s[..k]), s[k])
  {
    assert s[..k + 1][..k] == s[..k];
  }

  /** The loop that fills `por_funcionario`. */
  method AgruparPorFuncionario(registros: seq<RegistroFrequencia>) returns (gs: seq<Resumo>)
    ensures gs == Agrupar(registros)
  {
    gs := [];
    var k := 0;
    while k < |registros|
      invariant 0 <= k <= |registros|
      invariant gs == Agrupar(registros[..k])
    {
      ghost var before := gs;
      var r := registros[k];
      var i := IndexOfGroup(gs, r.funcionarioId);
      if i < 0 {
        gs := gs + [Resumo(r.funcionarioId, r.nome, 0, 0, 0)];
        i := |gs| - 1;
      }
      gs := gs[i := CountInto(gs[i], r)];
      assert gs == AddRegistro(before, r);
      AgruparStep(registros, k);
      k := k + 1;
    }
    assert registros[..k] == registros;
  }

  // ---------------------------------------------------------------------------
  // Per-sector counts
  // ---------------------------------------------------------------------------

  function SetorOf(f: Funcionario): string {
    f.setor
  }

  /** `_agrupar_por_setor`: one count per sector, in first-seen order. */
  method AgruparPorSetor(funcionarios: seq<Funcionario>) returns (setores: Tally<string>)
    ensures setores == TallyBy(funcionarios, SetorOf)
  {
    setores := [];
    var k := 0;
    while k < |funcionarios|
      invariant 0 <= k <= |funcionarios|
      invariant setores == TallyBy(funcionarios[..k], SetorOf)
    {
      assert funcionarios[..k + 1][..k] == funcionarios[..k];
      setores := Bump(setores, funcionarios[k].setor);
      k := k + 1;
    }
    assert funcionarios[..k] == funcionarios;
  }

  // ---------------------------------------------------------------------------
  // Reports
  // ---------------------------------------------------------------------------

  /** The ids of the employees the sector listing returns. */
  function IdsOf(fs: seq<Funcionario>): set<string> {
    set k | 0 <= k < |fs| :: fs[k].id
  }

  /** The ids of the employees the sector listing returns: each is an employee of that sector. */
  function SetorIds(funcionarios: seq<Funcionario>, setor: Option<string>): (ids: set<string>)
    requires Truthy(setor)
    ensures forall id :: id in ids ==> exists f :: f in funcionarios && f.id == id && f.setor == setor.value
  {
    var fs := Funcionarios.List(funcionarios, None, setor);
    forall id | id in IdsOf(fs)
      ensures exists f :: f in funcionarios && f.id == id && f.setor == setor.value
    {
      var j :| 0 <= j < |fs| && fs[j].id == id;
      assert fs[j] in funcionarios && Funcionarios.MatchesFilters(fs[j], None, setor);
    }
    IdsOf(fs)
  }

  /** The records the attendance report covers: the listing query, then the sector filter when one is given. */
  function RegistrosDoRelatorio(registros: seq<RegistroFrequencia>, funcionarios: seq<Funcionario>,
                                req: RelatorioRequest): (r: seq<RegistroFrequencia>)
    ensures forall k :: 0 <= k < |r| ==> r[k] in registros
    ensures forall k :: 0 <= k < |r| ==>
              Frequencias.Selected(r[k], Some(req.dataInicio), Some(req.dataFim), req.funcionarioId)
    ensures Truthy(req.setor) ==>
              forall k :: 0 <= k < |r| ==>
                exists f :: f in funcionarios && f.id == r[k].funcionarioId && f.setor == req.setor.value
  {
    var listed := Frequencias.ListRegistros(registros, Some(req.dataInicio), Some(req.dataFim), req.funcionarioId);
    if Truthy(req.setor) then
      var ids := SetorIds(funcionarios, req.setor);
      Filter(listed, (x: RegistroFrequencia) => x.funcionarioId in ids)
    else listed
  }

  /** `_relatorio_frequencia` over the stored records and employees. */
  function RelatorioFrequenciaFor(registros: seq<RegistroFrequencia>, funcionarios: seq<Funcionario>,
                                  req: RelatorioRequest, agora: string): (r: Relatorio)
    ensures r.RelatorioFrequencia?
    ensures var sel := RegistrosDoRelatorio(registros, funcionarios, req);
      Groups(r.dados, sel) && r.totalRegistros == |sel| && r.totalHoras == TotalHoras(sel)
      && r.totalFuncionarios == |r.dados|
    ensures SumOf(r.dados, RegistrosOf) == r.totalRegistros && SumOf(r.dados, HorasOfGroup) == r.totalHoras
  {
    var sel := RegistrosDoRelatorio(registros, funcionarios, req);
    var dados := Agrupar(sel);
    AgruparGroups(sel);
    RelatorioFrequencia(req.dataInicio, req.dataFim, dados, |sel|, TotalHoras(sel), |dados|, agora)
  }

  /** The number of employees in the attendance report is the number of distinct employee ids among its records. */
  lemma FuncionariosDistintos(registros: seq<RegistroFrequencia>, funcionarios: seq<Funcionario>,
                              req: RelatorioRequest, agora: string)
    ensures var r := RelatorioFrequenciaFor(registros, funcionarios, req, agora);
      r.totalFuncionarios == |Distinct(Ids(RegistrosDoRelatorio(registros, funcionarios, req)))|
  {
    var r := RelatorioFrequenciaFor(registros, funcionarios, req, agora);
    assert |MapSeq(r.dados, GroupId)| == |r.dados|;
  }

  /** The employees the general report counts: active ones (the listing query), of the given sector if any. */
  function FuncionariosDoGeral(funcionarios: seq<Funcionario>, req: RelatorioRequest): (r: seq<Funcionario>)
    ensures forall k :: 0 <= k < |r| ==> r[k] in funcionarios && r[k].ativo
    ensures Truthy(req.setor) ==> forall k :: 0 <= k < |r| ==> r[k].setor == req.setor.value
  {
    var ativos := Funcionarios.List(funcionarios, Some(true), None);
    if Truthy(req.setor) then Filter(ativos, (f: Funcionario) => f.setor == req.setor.value) else ativos
  }

  /** `_relatorio_geral` over the stored records and employees. */
  function RelatorioGeralFor(registros: seq<RegistroFrequencia>, funcionarios: seq<Funcionario>,
                             req: RelatorioRequest, agora: string): (r: Relatorio)
    ensures r.RelatorioGeral?
    ensures var fs := FuncionariosDoGeral(funcionarios, req);
      r.totalAtivos == |fs| && TalliesOf(r.porSetor, fs, SetorOf) && Total(r.porSetor) == r.totalAtivos
    ensures var regs := Frequencias.ListRegistros(registros, Some(req.dataInicio), Some(req.dataFim), None);
      r.registrosFrequencia == |regs| && r.totalHorasPeriodo == TotalHoras(regs)
  {
    var regs := Frequencias.ListRegistros(registros, Some(req.dataInicio), Some(req.dataFim), None);
    var fs := FuncionariosDoGeral(funcionarios, req);
    TallyByTallies(fs, SetorOf);
    RelatorioGeral(req.dataInicio, req.dataFim, |fs|, TallyBy(fs, SetorOf), |regs|, TotalHoras(regs), agora)
  }

  /** In the general report the sector narrows the employees only, never the attendance figures. */
  lemma GeralSetorIgnoredForHoras(registros: seq<RegistroFrequencia>, funcionarios: seq<Funcionario>,
                                  req: RelatorioRequest, setor: Option<string>, agora: string)
    ensures var a := RelatorioGeralFor(registros, funcionarios, req, agora);
      var b := RelatorioGeralFor(registros, funcionarios, req.(setor := setor), agora);
      a.registrosFrequencia == b.registrosFrequencia && a.totalHorasPeriodo == b.totalHorasPeriodo
  {
  }

  /** `gerar_relatorio`: the two implemented kinds; any other kind is refused. */
  function GerarRelatorioFor(registros: seq<RegistroFrequencia>, funcionarios: seq<Funcionario>,
                             req: RelatorioRequest, agora: string): (r: Result<Relatorio, string>)
    ensures req.tipo == Frequencia <==> r.Ok? && r.value.RelatorioFrequencia?
    ensures req.tipo == Geral <==> r.Ok? && r.value.RelatorioGeral?
    ensures r.Err? ==> r.error == NotImplementedMessage(req.tipo)
  {
    match req.tipo
    case Frequencia => Ok(RelatorioFrequenciaFor(registros, funcionarios, req, agora))
    case Geral => Ok(RelatorioGeralFor(registros, funcionarios, req, agora))
    case _ => Err(NotImplementedMessage(req.tipo))
  }

  /** The report service over the attendance and employee stores. */
  class RelatorioService {
    const frequencias: Frequencias.FrequenciaService
    const funcionarios: Funcionarios.FuncionarioService

    constructor (frequencias: Frequencias.FrequenciaService, funcionarios: Funcionarios.FuncionarioService)
      ensures this.frequencias == frequencias && this.funcionarios == funcionarios
    {
      this.frequencias := frequencias;
      this.funcionarios := funcionarios;
    }

    method GerarRelatorio(req: RelatorioRequest, agora: string) returns (r: Result<Relatorio, string>)
      ensures r == GerarRelatorioFor(frequencias.registros, funcionarios.rows, req, agora)
    {
      match req.tipo {
        case Frequencia =>
          var rel := GerarFrequencia(req, agora);
          r := Ok(rel);
        case Geral =>
          var rel := GerarGeral(req, agora);
          r := Ok(rel);
        case _ =>
          r := Err(NotImplementedMessage(req.tipo));
      }
    }

    method GerarFrequencia(req: RelatorioRequest, agora: string) returns (r: Relatorio)
      ensures r == RelatorioFrequenciaFor(frequencias.registros, funcionarios.rows, req, agora)
    {
      var registros := RegistrosDoRelatorio(frequencias.registros, funcionarios.rows, req);
      var dados := AgruparPorFuncionario(registros);
      r := RelatorioFrequencia(req.dataInicio, req.dataFim, dados, |registros|,
                               TotalHoras(registros), |dados|, agora);
    }

    method GerarGeral(req: RelatorioRequest, agora: string) returns (r: Relatorio)
      ensures r == RelatorioGeralFor(frequencias.registros, funcionarios.rows, req, agora)
    {
      var registros := Frequencias.ListRegistros(frequencias.registros, Some(req.dataInicio), Some(req.dataFim), None);
      var fs := FuncionariosDoGeral(funcionarios.rows, req);
      var porSetor := AgruparPorSetor(fs);
      r := RelatorioGeral(req.dataInicio, req.dataFim, |fs|, porSetor, |registros|,
                          TotalHoras(registros), agora);
    }
  }
}
