/**
 * The settings page's job-title list: each cargo has a numeric id, a name and
 * a lunch break in minutes; the page adds, removes and edits entries in its
 * local state.
 *
 * The ids are JavaScript numbers. The new id is `Math.max(...ids) + 1`,
 * which for an empty list is `-Infinity + 1`, that is `-Infinity`; the model
 * keeps that value as `MinusInfinity`. Ordinary ids are integers.
 */
module Configuracoes {
  import opened Text
  import opened Lists

  /** A cargo id: an integer, or the `-Infinity` that `Math.max()` of nothing yields. */
  datatype Id = Finite(n: int) | MinusInfinity

  /** JavaScript `<=` on those numbers. */
  predicate AtMost(a: Id, b: Id) {
    a.MinusInfinity? || (b.Finite? && a.n <= b.n)
  }

  /** JavaScript `x + 1`. */
  function Succ(a: Id): Id {
    match a
    case MinusInfinity => MinusInfinity
    case Finite(n) => Finite(n + 1)
  }

  datatype Cargo = Cargo(id: Id, nome: string, tempoAlmoco: int)

  /** The list the page starts with. */
  const InitialCargos := [Cargo(Finite(1), "Gerente", 60), Cargo(Finite(2), "Desenvolvedor", 60), Cargo(Finite(3), "Analista", 60)]

  /** The default lunch break a new cargo receives until the user changes it. */
  const InitialTempoAlmoco := 60

  predicate UniqueIds(cargos: seq<Cargo>) {
    forall i, j :: 0 <= i < j < |cargos| ==> cargos[i].id != cargos[j].id
  }

  lemma InitialIdsUnique()
    ensures UniqueIds(InitialCargos)
  {
  }

  /** `Math.max(...cargos.map(c => c.id))`: the largest id, `-Infinity` for none. */
  function MaxId(cargos: seq<Cargo>): (r: Id)
    ensures forall k :: 0 <= k < |cargos| ==> AtMost(cargos[k].id, r)
    ensures r.Finite? ==> exists k :: 0 <= k < |cargos| && cargos[k].id == r
    ensures cargos == [] ==> r == MinusInfinity
  {
    if cargos == [] then MinusInfinity
    else
      var rest := MaxId(cargos[1..]);
      assert forall k :: 1 <= k < |cargos| ==> cargos[k] == cargos[1..][k - 1];
      if AtMost(cargos[0].id, rest) then rest else cargos[0].id
  }

  /** What `adicionarCargo` leaves: the list, the input field, and the toast shown. */
  datatype Toast = ErrorToast(message: string) | SuccessToast(message: string)
  datatype Added = Added(cargos: seq<Cargo>, novoCargo: string, toast: Toast)

  const BlankNameMessage := "Digite um nome para o cargo"

  function AddedMessage(nome: string): string {
    "Cargo \"" + nome + "\" adicionado com sucesso!"
  }

  /**
   * `adicionarCargo` as written: a blank name is refused; otherwise the
   * untrimmed name is appended with id `Math.max(...ids) + 1` and the current
   * default lunch break, and the input is cleared.
   */
  function AdicionarCargoAsWritten(cargos: seq<Cargo>, novoCargo: string, tempoDefault: int): (r: Added)
    ensures Trim(novoCargo) == "" ==> r == Added(cargos, novoCargo, ErrorToast(BlankNameMessage))
    ensures Trim(novoCargo) != "" ==>
      r == Added(cargos + [Cargo(Succ(MaxId(cargos)), novoCargo, tempoDefault)], "", SuccessToast(AddedMessage(novoCargo)))
  {
    if Trim(novoCargo) == "" then Added(cargos, novoCargo, ErrorToast(BlankNameMessage))
    else Added(cargos + [Cargo(Succ(MaxId(cargos)), novoCargo, tempoDefault)], "", SuccessToast(AddedMessage(novoCargo)))
  }

  /**
   * Once every cargo has been removed, two additions give two cargos with
   * the same id `-Infinity`, and removing either removes both.
   */
  lemma AsWrittenRepeatsIdsAfterEmptying()
    ensures var first := AdicionarCargoAsWritten([], "Gerente", 60).cargos;
      var second := AdicionarCargoAsWritten(first, "Analista", 60).cargos;
      |second| == 2 && second[0].id == second[1].id == MinusInfinity
      && RemoverCargo(second, MinusInfinity) == []
  {
    var first := AdicionarCargoAsWritten([], "Gerente", 60).cargos;
    assert first == [Cargo(MinusInfinity, "Gerente", 60)];
    assert MaxId(first) == MinusInfinity;
  }

  /** The id a new cargo should receive: one past the largest, or 1 when there is none. */
  function NextId(cargos: seq<Cargo>): (r: Id)
    ensures r.Finite?
    ensures forall k :: 0 <= k < |cargos| ==> cargos[k].id != r
  {
    match MaxId(cargos)
    case MinusInfinity => Finite(1)
    case Finite(n) => Finite(n + 1)
  }

  /** The corrected id agrees with the written one whenever the list holds a numeric id. */
  lemma NextIdAgreesWhenNonEmpty(cargos: seq<Cargo>)
    requires exists k :: 0 <= k < |cargos| && cargos[k].id.Finite?
    ensures NextId(cargos) == Succ(MaxId(cargos))
  {
    var k :| 0 <= k < |cargos| && cargos[k].id.Finite?;
    assert AtMost(cargos[k].id, MaxId(cargos));
  }

  /** `adicionarCargo` with the corrected id: a blank name changes nothing; otherwise a fresh id is appended. */
  function AdicionarCargo(cargos: seq<Cargo>, novoCargo: string, tempoDefault: int): (r: Added)
    ensures Trim(novoCargo) == "" ==> r == Added(cargos, novoCargo, ErrorToast(BlankNameMessage))
    ensures Trim(novoCargo) != "" ==>
      |r.cargos| == |cargos| + 1 && r.cargos[..|cargos|] == cargos && r.novoCargo == ""
      && r.cargos[|cargos|].nome == novoCargo && r.cargos[|cargos|].tempoAlmoco == tempoDefault
      && (forall k :: 0 <= k < |cargos| ==> cargos[k].id != r.cargos[|cargos|].id)
      && r.toast == SuccessToast(AddedMessage(novoCargo))
  {
    if Trim(novoCargo) == "" then Added(cargos, novoCargo, ErrorToast(BlankNameMessage))
    else Added(cargos + [Cargo(NextId(cargos), novoCargo, tempoDefault)], "", SuccessToast(AddedMessage(novoCargo)))
  }

  /** Adding keeps the ids unique. */
  lemma AdicionarKeepsIdsUnique(cargos: seq<Cargo>, novoCargo: string, tempoDefault: int)
    requires UniqueIds(cargos)
    ensures UniqueIds(AdicionarCargo(cargos, novoCargo, tempoDefault).cargos)
  {
    var r := AdicionarCargo(cargos, novoCargo, tempoDefault).cargos;
    if Trim(novoCargo) != "" {
      assert forall k :: 0 <= k < |cargos| ==> r[k] == cargos[k];
    }
  }

  /** `removerCargo`: the cargos with another id, in order. */
  function RemoverCargo(cargos: seq<Cargo>, id: Id): seq<Cargo> {
    Filter(cargos, (c: Cargo) => c.id != id)
  }

  /** Removal drops every cargo with the id and keeps the others, in order. */
  lemma RemoverSpec(cargos: seq<Cargo>, id: Id)
    ensures forall c :: c in RemoverCargo(cargos, id) ==> c.id != id && c in cargos
    ensures forall k :: 0 <= k < |cargos| && cargos[k].id != id ==> cargos[k] in RemoverCargo(cargos, id)
    ensures Subseq(RemoverCargo(cargos, id), cargos)
  {
    var p := (c: Cargo) => c.id != id;
    FilterSubseq(cargos, p);
    forall k | 0 <= k < |cargos| && cargos[k].id != id
      ensures cargos[k] in RemoverCargo(cargos, id)
    {
      FilterKeeps(cargos, p, k);
    }
  }

  /** Removal keeps the ids unique. */
  lemma {:induction false} RemoverKeepsIdsUnique(cargos: seq<Cargo>, id: Id)
    requires UniqueIds(cargos)
    ensures UniqueIds(RemoverCargo(cargos, id))
    decreases |cargos|
  {
    if cargos != [] {
      var t := cargos[1..];
      assert UniqueIds(t) by {
        forall i, j | 0 <= i < j < |t|
          ensures t[i].id != t[j].id
        {
          assert t[i] == cargos[i + 1] && t[j] == cargos[j + 1];
        }
      }
      RemoverKeepsIdsUnique(t, id);
      var rest := RemoverCargo(t, id);
      if cargos[0].id != id {
        assert forall c :: c in rest ==> c in t by {
          RemoverSpec(t, id);
        }
        assert forall c :: c in t ==> c.id != cargos[0].id;
        assert RemoverCargo(cargos, id) == [cargos[0]] + rest;
      }
    }
  }

  /** `atualizarTempoAlmoco`: every cargo with the id gets the new break. */
  function AtualizarTempoAlmoco(cargos: seq<Cargo>, id: Id, tempo: int): (r: seq<Cargo>)
    ensures |r| == |cargos|
    ensures forall k :: 0 <= k < |r| ==>
      r[k] == (if cargos[k].id == id then cargos[k].(tempoAlmoco := tempo) else cargos[k])
  {
    MapSeq(cargos, (c: Cargo) => if c.id == id then c.(tempoAlmoco := tempo) else c)
  }

  /** With unique ids, editing a break changes one entry at most and keeps every id and name. */
  lemma AtualizarChangesOne(cargos: seq<Cargo>, id: Id, tempo: int, k: nat)
    requires UniqueIds(cargos) && k < |cargos| && cargos[k].id == id
    ensures var r := AtualizarTempoAlmoco(cargos, id, tempo);
      r[k].tempoAlmoco == tempo
      && (forall j :: 0 <= j < |cargos| && j != k ==> r[j] == cargos[j])
      && UniqueIds(r)
  {
  }
}
