/**
 * The employee service: a collection of employee documents with unique ids
 * and unique CPFs, created, listed, updated field by field and deleted
 * softly (marked inactive, never removed).
 */
module Funcionarios {
  import opened Wrappers
  import opened Lists
  import opened Sorting
  import opened FuncionarioModel

  /** The `length` passed to `to_list` in the listing query. */
  const ListLimit := 1000

  predicate UniqueIds(rows: seq<Funcionario>) {
    forall i, j :: 0 <= i < j < |rows| ==> rows[i].id != rows[j].id
  }

  predicate UniqueCpfs(rows: seq<Funcionario>) {
    forall i, j :: 0 <= i < j < |rows| ==> rows[i].cpf != rows[j].cpf
  }

  /** The position of the first row with this id (MongoDB `find_one` in natural order). */
  function IndexOfId(rows: seq<Funcionario>, id: string): (r: int)
    ensures -1 <= r < |rows|
    ensures r >= 0 ==> rows[r].id == id && forall i :: 0 <= i < r ==> rows[i].id != id
    ensures r == -1 <==> forall i :: 0 <= i < |rows| ==> rows[i].id != id
  {
    if rows == [] then -1
    else if rows[0].id == id then 0
    else
      var r := IndexOfId(rows[1..], id);
      assert forall i :: 1 <= i < |rows| ==> rows[i] == rows[1..][i - 1];
      if r == -1 then -1 else r + 1
  }

  /** The position of the first row with this CPF. */
  function IndexOfCpf(rows: seq<Funcionario>, cpf: string): (r: int)
    ensures -1 <= r < |rows|
    ensures r >= 0 ==> rows[r].cpf == cpf && forall i :: 0 <= i < r ==> rows[i].cpf != cpf
    ensures r == -1 <==> forall i :: 0 <= i < |rows| ==> rows[i].cpf != cpf
  {
    if rows == [] then -1
    else if rows[0].cpf == cpf then 0
    else
      var r := IndexOfCpf(rows[1..], cpf);
      assert forall i :: 1 <= i < |rows| ==> rows[i] == rows[1..][i - 1];
      if r == -1 then -1 else r + 1
  }

  /** `find_one({"cpf": cpf, "id": {"$ne": id}})` found something. */
  predicate CpfUsedByOther(rows: seq<Funcionario>, cpf: string, id: string) {
    exists i :: 0 <= i < |rows| && rows[i].cpf == cpf && rows[i].id != id
  }

  /** The listing filters: `ativo` when given, `setor` when given and non-empty. */
  predicate MatchesFilters(f: Funcionario, ativo: Option<bool>, setor: Option<string>) {
    (ativo.Some? ==> f.ativo == ativo.value)
    && (setor.Some? && setor.value != "" ==> f.setor == setor.value)
  }

  function NomeKey(f: Funcionario): string {
    f.nome
  }

  /** The update request supplies no field. */
  predicate NoFields(u: FuncionarioUpdate) {
    u.nome.None? && u.cpf.None? && u.cargo.None? && u.setor.None? && u.email.None?
    && u.telefone.None? && u.ativo.None?
  }

  /** `$set` of the supplied fields. */
  function ApplyUpdate(f: Funcionario, u: FuncionarioUpdate): Funcionario {
    f.(nome := u.nome.GetOr(f.nome), cpf := u.cpf.GetOr(f.cpf), cargo := u.cargo.GetOr(f.cargo),
       setor := u.setor.GetOr(f.setor),
       email := if u.email.Some? then u.email else f.email,
       telefone := if u.telefone.Some? then u.telefone else f.telefone,
       ativo := u.ativo.GetOr(f.ativo))
  }

  /** A new employee built from a create request and a freshly generated id. */
  function FromCreate(c: FuncionarioCreate, id: string): Funcionario {
    Funcionario(id, c.nome, c.cpf, c.cargo, c.setor, c.email, c.telefone, c.dataAdmissao, c.ativo)
  }

  function CpfExistsMessage(cpf: string): string {
    "Funcionário com CPF " + cpf + " já existe"
  }

  function CpfInUseMessage(cpf: string): string {
    "CPF " + cpf + " já está em uso"
  }

  /** The listing query: filter, sort by `nome` ascending, at most ListLimit documents. */
  function List(rows: seq<Funcionario>, ativo: Option<bool>, setor: Option<string>): (r: seq<Funcionario>)
    ensures forall k :: 0 <= k < |r| ==> r[k] in rows && MatchesFilters(r[k], ativo, setor)
    ensures SortedBy(r, NomeKey, false)
    ensures |r| <= ListLimit
    ensures |Filter(rows, f => MatchesFilters(f, ativo, setor))| <= ListLimit
            ==> multiset(r) == multiset(Filter(rows, f => MatchesFilters(f, ativo, setor)))
    ensures var m := Filter(rows, f => MatchesFilters(f, ativo, setor));
            |r| == (if |m| < ListLimit then |m| else ListLimit) && FirstInOrder(r, m, NomeKey, false)
  {
    var matching := Filter(rows, f => MatchesFilters(f, ativo, setor));
    var sorted := SortBy(matching, NomeKey, false);
    var r := Take(sorted, ListLimit);
    TakeSortByFirst(matching, ListLimit, NomeKey, false);
    forall k | 0 <= k < |r|
      ensures r[k] in rows && MatchesFilters(r[k], ativo, setor)
    {
      assert r[k] == sorted[k];
      assert sorted[k] in multiset(matching);
    }
    r
  }

  /** Every matching employee is listed when there are no more than ListLimit of them. */
  lemma ListComplete(rows: seq<Funcionario>, ativo: Option<bool>, setor: Option<string>, i: nat)
    requires i < |rows| && MatchesFilters(rows[i], ativo, setor)
    requires |Filter(rows, f => MatchesFilters(f, ativo, setor))| <= ListLimit
    ensures rows[i] in List(rows, ativo, setor)
  {
    FilterKeeps(rows, f => MatchesFilters(f, ativo, setor), i);
    assert rows[i] in multiset(List(rows, ativo, setor));
  }

  class FuncionarioService {
    var rows: seq<Funcionario>

    predicate Valid()
      reads this
    {
      UniqueIds(rows) && UniqueCpfs(rows)
    }

    constructor ()
      ensures Valid() && rows == []
    {
      rows := [];
    }

    /** `get_by_id`. */
    function GetById(id: string): (r: Option<Funcionario>)
      reads this
      ensures r.Some? ==> r.value in rows && r.value.id == id
      ensures r.None? <==> forall i :: 0 <= i < |rows| ==> rows[i].id != id
    {
      var i := IndexOfId(rows, id);
      if i < 0 then None else Some(rows[i])
    }

    /** `get_by_cpf`. */
    function GetByCpf(cpf: string): (r: Option<Funcionario>)
      reads this
      ensures r.Some? ==> r.value in rows && r.value.cpf == cpf
      ensures r.None? <==> forall i :: 0 <= i < |rows| ==> rows[i].cpf != cpf
    {
      var i := IndexOfCpf(rows, cpf);
      if i < 0 then None else Some(rows[i])
    }

    /** `get_all`. */
    function GetAll(ativo: Option<bool>, setor: Option<string>): (r: seq<Funcionario>)
      reads this
      ensures forall k :: 0 <= k < |r| ==> r[k] in rows && MatchesFilters(r[k], ativo, setor)
      ensures SortedBy(r, NomeKey, false) && |r| <= ListLimit
      ensures var m := Filter(rows, f => MatchesFilters(f, ativo, setor));
              |r| == (if |m| < ListLimit then |m| else ListLimit) && FirstInOrder(r, m, NomeKey, false)
    {
      List(rows, ativo, setor)
    }

    /**
     * `create`: rejects a CPF already on file; otherwise stores the new
     * employee under the generated id `newId`.
     */
    method Create(data: FuncionarioCreate, newId: string) returns (r: Result<Funcionario, string>)
      requires Valid()
      requires forall i :: 0 <= i < |rows| ==> rows[i].id != newId
      modifies this
      ensures Valid()
      ensures (exists i :: 0 <= i < |old(rows)| && old(rows)[i].cpf == data.cpf)
              ==> r == Err(CpfExistsMessage(data.cpf)) && rows == old(rows)
      ensures (forall i :: 0 <= i < |old(rows)| ==> old(rows)[i].cpf != data.cpf)
              ==> r == Ok(FromCreate(data, newId)) && rows == old(rows) + [FromCreate(data, newId)]
    {
      var existing := GetByCpf(data.cpf);
      if existing.Some? {
        return Err(CpfExistsMessage(data.cpf));
      }
      var f := FromCreate(data, newId);
      rows := rows + [f];
      r := Ok(f);
    }

    /**
     * `update`: with no field supplied it is a lookup; a CPF used by another
     * employee is refused; otherwise the supplied fields are set, and the
     * result is the updated employee when the document changed and None when
     * nothing was modified (an unknown id, or values equal to the stored ones).
     */
    method Update(id: string, u: FuncionarioUpdate) returns (r: Result<Option<Funcionario>, string>)
      requires Valid()
      modifies this
      ensures Valid() && |rows| == |old(rows)|
      ensures NoFields(u) ==> r == Ok(old(GetById(id))) && rows == old(rows)
      ensures !NoFields(u) && u.cpf.Some? && CpfUsedByOther(old(rows), u.cpf.value, id)
              ==> r == Err(CpfInUseMessage(u.cpf.value)) && rows == old(rows)
      ensures !NoFields(u) && !(u.cpf.Some? && CpfUsedByOther(old(rows), u.cpf.value, id)) ==>
        var i := IndexOfId(old(rows), id);
        if i < 0 || ApplyUpdate(old(rows)[i], u) == old(rows)[i] then r == Ok(None) && rows == old(rows)
        else r == Ok(Some(ApplyUpdate(old(rows)[i], u))) && rows == old(rows)[i := ApplyUpdate(old(rows)[i], u)]
    {
      if NoFields(u) {
        return Ok(GetById(id));
      }
      if u.cpf.Some? && CpfUsedByOther(rows, u.cpf.value, id) {
        return Err(CpfInUseMessage(u.cpf.value));
      }
      var i := IndexOfId(rows, id);
      if i < 0 {
        return Ok(None);
      }
      var updated := ApplyUpdate(rows[i], u);
      if updated == rows[i] {
        return Ok(None);
      }
      assert forall j :: 0 <= j < |rows| && j != i ==> rows[j].id != id;
      rows := rows[i := updated];
      r := Ok(Some(updated));
    }

    /** `delete`: marks an active employee inactive; False for an unknown id or one already inactive. */
    method Delete(id: string) returns (deleted: bool)
      requires Valid()
      modifies this
      ensures Valid() && |rows| == |old(rows)|
      ensures var i := IndexOfId(old(rows), id);
        deleted == (i >= 0 && old(rows)[i].ativo)
        && rows == (if deleted then old(rows)[i := old(rows)[i].(ativo := false)] else old(rows))
    {
      var i := IndexOfId(rows, id);
      if i < 0 || !rows[i].ativo {
        return false;
      }
      rows := rows[i := rows[i].(ativo := false)];
      deleted := true;
    }
  }

  /** The fields an update sets are exactly the supplied ones; id and admission date never change. */
  lemma ApplyUpdateFields(f: Funcionario, u: FuncionarioUpdate)
    ensures var g := ApplyUpdate(f, u);
      g.id == f.id && g.dataAdmissao == f.dataAdmissao
      && g.nome == (if u.nome.Some? then u.nome.value else f.nome)
      && g.cpf == (if u.cpf.Some? then u.cpf.value else f.cpf)
      && g.ativo == (if u.ativo.Some? then u.ativo.value else f.ativo)
  {
  }

  /** An update that supplies nothing leaves the employee as it is. */
  lemma EmptyUpdateIsIdentity(f: Funcionario, u: FuncionarioUpdate)
    requires NoFields(u)
    ensures ApplyUpdate(f, u) == f
  {
  }

  /** Soft delete twice: the second call reports False and changes nothing. */
  lemma DeleteIdempotent(rows: seq<Funcionario>, id: string)
    requires IndexOfId(rows, id) >= 0
    ensures var i := IndexOfId(rows, id);
      var after := rows[i := rows[i].(ativo := false)];
      IndexOfId(after, id) == i && !after[i].ativo
  {
    var i := IndexOfId(rows, id);
    var after := rows[i := rows[i].(ativo := false)];
    assert forall j :: 0 <= j < |after| && j != i ==> after[j].id == rows[j].id;
    assert after[i].id == id;
  }
}
