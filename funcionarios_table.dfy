/**
 * The employee table screen: the search-and-sector filter over the fetched
 * employees, the sector options, the row selection the checkboxes edit and
 * the batch actions that clear it.
 */
module FuncionariosTable {
  import opened Text
  import opened Lists

  /** The fields of a fetched employee the table's logic reads. */
  datatype Row = Row(id: string, nome: string, cpf: string, setor: string)

  /**
   * An employee is shown when its lowercased name contains the lowercased
   * search term or its CPF contains the raw term, and the sector filter is
   * empty or equal to its sector.
   */
  predicate Matches(f: Row, search: string, setor: string) {
    (Contains(Lower(f.nome), Lower(search)) || Contains(f.cpf, search)) && (setor == "" || f.setor == setor)
  }

  function Filtered(fs: seq<Row>, search: string, setor: string): seq<Row> {
    Filter(fs, f => Matches(f, search, setor))
  }

  /** The filtered list is the employees that match, in their order. */
  lemma FilteredIsOrderedSubset(fs: seq<Row>, search: string, setor: string)
    ensures Subseq(Filtered(fs, search, setor), fs)
    ensures forall k :: 0 <= k < |fs| && Matches(fs[k], search, setor) ==> fs[k] in Filtered(fs, search, setor)
    ensures forall f :: f in Filtered(fs, search, setor) ==> f in fs && Matches(f, search, setor)
  {
    FilterSubseq(fs, f => Matches(f, search, setor));
    forall k | 0 <= k < |fs| && Matches(fs[k], search, setor)
      ensures fs[k] in Filtered(fs, search, setor)
    {
      FilterKeeps(fs, f => Matches(f, search, setor), k);
    }
  }

  /** With no search term and no sector filter, every employee is shown, in order. */
  lemma EmptyFiltersShowAll(fs: seq<Row>)
    ensures Filtered(fs, "", "") == fs
  {
    forall k | 0 <= k < |fs|
      ensures Matches(fs[k], "", "")
    {
      EmptyContained(Lower(fs[k].nome));
    }
    FilterKeepsAll(fs, f => Matches(f, "", ""));
  }

  function SetorOf(f: Row): string {
    f.setor
  }

  /** `Array.from(new Set(funcionarios.map(f => f.setor)))`. */
  function Setores(fs: seq<Row>): seq<string> {
    Distinct(MapSeq(fs, SetorOf))
  }

  /** The sector options: each sector once, every employee's sector present, nothing else, in first-seen order. */
  lemma SetoresSpec(fs: seq<Row>)
    ensures NoDuplicates(Setores(fs))
    ensures forall k :: 0 <= k < |fs| ==> fs[k].setor in Setores(fs)
    ensures forall s :: s in Setores(fs) ==> exists k :: 0 <= k < |fs| && fs[k].setor == s
    ensures forall i, j :: 0 <= i < j < |Setores(fs)| ==>
      FirstIndex(MapSeq(fs, SetorOf), Setores(fs)[i]) < FirstIndex(MapSeq(fs, SetorOf), Setores(fs)[j])
  {
    var m := MapSeq(fs, SetorOf);
    forall k | 0 <= k < |fs|
      ensures fs[k].setor in Setores(fs)
    {
      DistinctCovers(m, k);
    }
    forall s | s in Setores(fs)
      ensures exists k :: 0 <= k < |fs| && fs[k].setor == s
    {
      DistinctWithin(m, s);
      var k :| 0 <= k < |m| && m[k] == s;
    }
    forall i, j | 0 <= i < j < |Setores(fs)|
      ensures FirstIndex(m, Setores(fs)[i]) < FirstIndex(m, Setores(fs)[j])
    {
      DistinctFirstSeen(m, i, j);
    }
  }

  // ---------------------------------------------------------------------------
  // Selection
  // ---------------------------------------------------------------------------

  function IdOf(f: Row): string {
    f.id
  }

  /** `handleSelectAll`: the ids of the shown employees, or nothing. */
  function SelectAll(checked: bool, fs: seq<Row>, search: string, setor: string): (r: seq<string>)
    ensures checked ==>
      |r| == |Filtered(fs, search, setor)| && forall k :: 0 <= k < |r| ==> r[k] == Filtered(fs, search, setor)[k].id
    ensures !checked ==> r == []
  {
    if checked then MapSeq(Filtered(fs, search, setor), IdOf) else []
  }

  /** `handleSelectOne`: checking appends the id; unchecking drops every occurrence of it. */
  function SelectOne(selected: seq<string>, id: string, checked: bool): seq<string> {
    if checked then selected + [id] else Filter(selected, x => x != id)
  }

  /** Unchecking removes every occurrence of the id and keeps the rest, in order; checking appends it. */
  lemma SelectOneSpec(selected: seq<string>, id: string)
    ensures id !in SelectOne(selected, id, false)
    ensures Subseq(SelectOne(selected, id, false), selected)
    ensures forall k :: 0 <= k < |selected| && selected[k] != id ==> selected[k] in SelectOne(selected, id, false)
    ensures SelectOne(selected, id, true) == selected + [id]
  {
    var p := (x: string) => x != id;
    FilterSubseq(selected, p);
    forall k | 0 <= k < |selected| && selected[k] != id
      ensures selected[k] in SelectOne(selected, id, false)
    {
      FilterKeeps(selected, p, k);
    }
  }

  /** `handleBatchDelete` and `handleBatchEmail`: the toast text; both then clear the selection. */
  function BatchDeleteMessage(selected: seq<string>): string {
    NatToString(|selected|) + " funcionário(s) removido(s) com sucesso"
  }

  function BatchEmailMessage(selected: seq<string>): string {
    "E-mail enviado para " + NatToString(|selected|) + " funcionário(s)"
  }

  /** A batch action's effect on the selection. */
  function AfterBatch(selected: seq<string>): (r: seq<string>)
    ensures r == []
  {
    []
  }

  // ---------------------------------------------------------------------------
  // The header checkbox
  // ---------------------------------------------------------------------------

  /** The header checkbox as written: as many selected ids as shown rows, and some rows shown. */
  predicate HeaderCheckedAsWritten(selected: seq<string>, fs: seq<Row>, search: string, setor: string) {
    |selected| == |Filtered(fs, search, setor)| && |Filtered(fs, search, setor)| > 0
  }

  /** The header checkbox as intended: some rows shown, and every shown row selected. */
  predicate HeaderChecked(selected: seq<string>, fs: seq<Row>, search: string, setor: string) {
    |Filtered(fs, search, setor)| > 0 && forall f :: f in Filtered(fs, search, setor) ==> f.id in selected
  }

  /**
   * The count comparison goes wrong once the filter changes after a
   * selection: select both rows of sector "A", switch the filter to sector
   * "B", and the header shows all selected although no shown row is.
   */
  lemma HeaderCountMisleads()
    ensures var fs := [Row("1", "Ana", "1", "A"), Row("2", "Bia", "2", "B")];
      var selected := SelectAll(true, fs, "", "A");
      HeaderCheckedAsWritten(selected, fs, "", "B") && !HeaderChecked(selected, fs, "", "B")
  {
    var fs := [Row("1", "Ana", "1", "A"), Row("2", "Bia", "2", "B")];
    EmptyContained(Lower("Ana"));
    EmptyContained(Lower("Bia"));
    assert Matches(fs[0], "", "A") && !Matches(fs[1], "", "A");
    assert !Matches(fs[0], "", "B") && Matches(fs[1], "", "B");
    assert fs[1..][1..] == [];
    assert Filtered(fs, "", "A") == [fs[0]];
    assert Filtered(fs, "", "B") == [fs[1]];
  }

  /** Select-all checks the intended header box whenever a row is shown; deselect-all clears it. */
  lemma SelectAllChecksHeader(fs: seq<Row>, search: string, setor: string)
    ensures |Filtered(fs, search, setor)| > 0 ==> HeaderChecked(SelectAll(true, fs, search, setor), fs, search, setor)
    ensures !HeaderChecked(SelectAll(false, fs, search, setor), fs, search, setor)
  {
    var shown := Filtered(fs, search, setor);
    var sel := SelectAll(true, fs, search, setor);
    forall f | f in shown
      ensures f.id in sel
    {
      var k :| 0 <= k < |shown| && shown[k] == f;
      assert sel[k] == f.id;
    }
    if |shown| > 0 {
      assert shown[0] in shown;
    }
  }

  /** Without repeated ids, the intended condition implies the count comparison only when nothing stale is selected. */
  lemma HeaderAgreesWithoutStaleIds(selected: seq<string>, fs: seq<Row>, search: string, setor: string)
    requires NoDuplicates(selected)
    requires NoDuplicates(MapSeq(Filtered(fs, search, setor), IdOf))
    requires forall x :: x in selected ==> x in MapSeq(Filtered(fs, search, setor), IdOf)
    ensures HeaderChecked(selected, fs, search, setor) <==> HeaderCheckedAsWritten(selected, fs, search, setor)
  {
    var ids := MapSeq(Filtered(fs, search, setor), IdOf);
    var shown := Filtered(fs, search, setor);
    assert forall x :: x in ids <==> exists f :: f in shown && f.id == x by {
      forall x | x in ids
        ensures exists f :: f in shown && f.id == x
      {
        var k :| 0 <= k < |ids| && ids[k] == x;
        assert shown[k] in shown && shown[k].id == x;
      }
      forall x | exists f :: f in shown && f.id == x
        ensures x in ids
      {
        var f :| f in shown && f.id == x;
        var k :| 0 <= k < |shown| && shown[k] == f;
        assert ids[k] == x;
      }
    }
    if HeaderChecked(selected, fs, search, setor) {
      assert forall x :: x in ids ==> x in selected;
      SameElementsSameLength(selected, ids);
    }
    if HeaderCheckedAsWritten(selected, fs, search, setor) {
      SubsetSameLengthCovers(selected, ids);
    }
  }

  /** Two duplicate-free lists with the same elements have the same length. */
  lemma SameElementsSameLength(a: seq<string>, b: seq<string>)
    requires NoDuplicates(a) && NoDuplicates(b)
    requires forall x :: x in a <==> x in b
    ensures |a| == |b|
  {
    DistinctCardinality(a);
    DistinctCardinality(b);
    assert (set x | x in a) == (set x | x in b);
  }

  /** A duplicate-free list inside a duplicate-free list of the same length holds all of it. */
  lemma SubsetSameLengthCovers(a: seq<string>, b: seq<string>)
    requires NoDuplicates(a) && NoDuplicates(b) && |a| == |b|
    requires forall x :: x in a ==> x in b
    ensures forall x :: x in b ==> x in a
  {
    DistinctCardinality(a);
    DistinctCardinality(b);
    var sa := set x | x in a;
    var sb := set x | x in b;
    assert sa <= sb;
    assert |sb| == |sa| + |sb - sa| by {
      assert sb == sa + (sb - sa) && sa * (sb - sa) == {};
    }
    assert sb - sa == {};
    forall x | x in b
      ensures x in a
    {
      assert x in sb;
    }
  }

  /** A duplicate-free list has as many elements as its set. */
  lemma {:induction false} DistinctCardinality(a: seq<string>)
    requires NoDuplicates(a)
    ensures |set x | x in a| == |a|
  {
    if a != [] {
      var t := a[..|a| - 1];
      assert NoDuplicates(t);
      DistinctCardinality(t);
      assert (set x | x in a) == (set x | x in t) + {a[|a| - 1]};
      assert a[|a| - 1] !in (set x | x in t);
    }
  }
}
