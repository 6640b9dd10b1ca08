/**
 * The dashboard's summary figures, computed from the employees fetched with
 * `ativo = true` and the frequency records of the current month. The month's
 * bounds come from the clock and are not part of this model; hours are
 * JavaScript numbers, modelled as exact reals.
 */
module DashboardStats {
  import opened Wrappers
  import opened Lists

  /** The fields of a fetched employee and of a frequency record the figures read. */
  datatype Funcionario = Funcionario(id: string, ativo: bool)
  datatype Frequencia = Frequencia(funcionarioId: string, totalHoras: Option<real>)

  /** `mediaHorasDia`: the text '0', or the average that `toFixed(1)` renders. */
  datatype Media = ZeroText | Fixed1(value: real)

  datatype Stats = Stats(
    totalFuncionarios: nat, funcionariosAtivos: nat, presencasRegistradas: nat,
    horasTrabalhadasMes: real, mediaHorasDia: Media)

  predicate IsAtivo(f: Funcionario) {
    f.ativo
  }

  /** `reg.total_horas || 0`. */
  function Horas(reg: Frequencia): real {
    reg.totalHoras.GetOr(0.0)
  }

  /** `reduce((sum, reg) => sum + (reg.total_horas || 0), 0)`, left to right. */
  function SumHoras(regs: seq<Frequencia>): real {
    if regs == [] then 0.0 else SumHoras(regs[..|regs| - 1]) + Horas(regs[|regs| - 1])
  }

  /** The `stats` object the hook returns. */
  function ComputeStats(funcionarios: seq<Funcionario>, frequencias: seq<Frequencia>): (r: Stats)
    ensures r.totalFuncionarios == |funcionarios|
    ensures r.funcionariosAtivos <= r.totalFuncionarios
    ensures r.presencasRegistradas == |frequencias|
    ensures r.horasTrabalhadasMes == SumHoras(frequencias)
    ensures r.mediaHorasDia == ZeroText <==> frequencias == []
    ensures frequencias != [] ==> r.mediaHorasDia == Fixed1(r.horasTrabalhadasMes / |frequencias| as real)
  {
    var horas := SumHoras(frequencias);
    Stats(|funcionarios|, |Filter(funcionarios, IsAtivo)|, |frequencias|, horas,
          if |frequencias| > 0 then Fixed1(horas / |frequencias| as real) else ZeroText)
  }

  /** The hook never reports that it is loading. */
  function IsLoading(): (b: bool)
    ensures !b
  {
    false
  }

  /**
   * `funcionariosAtivos` counts exactly the active employees, whatever the
   * records: the flag `true` occurs that often among the fetched employees.
   */
  lemma AtivosCountsActive(funcionarios: seq<Funcionario>, frequencias: seq<Frequencia>)
    ensures ComputeStats(funcionarios, frequencias).funcionariosAtivos == |Filter(funcionarios, IsAtivo)|
    ensures ComputeStats(funcionarios, frequencias).funcionariosAtivos == multiset(MapSeq(funcionarios, IsAtivo))[true]
    ensures forall k :: 0 <= k < |funcionarios| && funcionarios[k].ativo ==>
      funcionarios[k] in Filter(funcionarios, IsAtivo)
  {
    forall k | 0 <= k < |funcionarios| && funcionarios[k].ativo
      ensures funcionarios[k] in Filter(funcionarios, IsAtivo)
    {
      FilterKeeps(funcionarios, IsAtivo, k);
    }
    ActiveFlags(funcionarios);
  }

  lemma {:induction false} ActiveFlags(funcionarios: seq<Funcionario>)
    ensures |Filter(funcionarios, IsAtivo)| == multiset(MapSeq(funcionarios, IsAtivo))[true]
    decreases |funcionarios|
  {
    if funcionarios != [] {
      var f := funcionarios[0];
      ActiveFlags(funcionarios[1..]);
      assert MapSeq(funcionarios, IsAtivo) == [IsAtivo(f)] + MapSeq(funcionarios[1..], IsAtivo);
      assert multiset(MapSeq(funcionarios, IsAtivo)) == multiset([IsAtivo(f)]) + multiset(MapSeq(funcionarios[1..], IsAtivo));
    }
  }

  /** The employees are fetched with `ativo = true`; when the filter holds, both counts agree. */
  lemma AllFetchedActive(funcionarios: seq<Funcionario>, frequencias: seq<Frequencia>)
    requires forall k :: 0 <= k < |funcionarios| ==> funcionarios[k].ativo
    ensures ComputeStats(funcionarios, frequencias).funcionariosAtivos == ComputeStats(funcionarios, frequencias).totalFuncionarios
  {
    FilterKeepsAll(funcionarios, IsAtivo);
  }

  /** The month's hours are the hours of the two halves of the records added together. */
  lemma {:induction false} SumHorasConcat(a: seq<Frequencia>, b: seq<Frequencia>)
    ensures SumHoras(a + b) == SumHoras(a) + SumHoras(b)
    decreases |b|
  {
    if b == [] {
      assert a + b == a;
    } else {
      assert (a + b)[..|a + b| - 1] == a + b[..|b| - 1];
      SumHorasConcat(a, b[..|b| - 1]);
    }
  }

  /** A record without `total_horas` counts as a presence but adds no hours. */
  lemma MissingHoursAddNothing(regs: seq<Frequencia>, reg: Frequencia)
    requires reg.totalHoras.None?
    ensures var s := ComputeStats([], regs + [reg]);
      s.presencasRegistradas == |regs| + 1 && s.horasTrabalhadasMes == SumHoras(regs)
  {
    assert (regs + [reg])[..|regs + [reg]| - 1] == regs;
  }

  /** With no negative hours, the month's total and the average are non-negative. */
  lemma {:induction false} HoursNonNegative(regs: seq<Frequencia>)
    requires forall k :: 0 <= k < |regs| ==> Horas(regs[k]) >= 0.0
    ensures SumHoras(regs) >= 0.0
    ensures regs != [] ==> ComputeStats([], regs).mediaHorasDia.value >= 0.0
    decreases |regs|
  {
    if regs != [] {
      HoursNonNegative(regs[..|regs| - 1]);
    }
  }
}
