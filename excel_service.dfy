/**
 * The spreadsheet service for employees and attendance: the employee export
 * (one row per employee, `Ativo` as Sim/Não), the employee import (required
 * columns, blank rows skipped, text stripped), the attendance export, and
 * the column widths both exports set.
 */
module ExcelService {
  import opened Wrappers
  import opened Text
  import opened Lists
  import opened Sheets
  import opened ExcelRouter


  // ---------------------------------------------------------------------------
  // Column widths
  // ---------------------------------------------------------------------------

  /**
   * The longest text cell of a column, 0 if none. The width loop compares
   * `len(str(value))` but then takes `len(value)`, which raises for every
   * non-text value and is caught: only text cells count.
   */
  function MaxTextLength(column: seq<Cell>): nat
    decreases |column|
  {
    if column == [] then 0
    else
      var m := MaxTextLength(column[..|column| - 1]);
      var c := column[|column| - 1];
      if c.Str? && |c.s| > m then |c.s| else m
  }

  lemma {:induction false} MaxTextLengthSpec(column: seq<Cell>)
    ensures forall k :: 0 <= k < |column| && column[k].Str? ==> |column[k].s| <= MaxTextLength(column)
    ensures MaxTextLength(column) == 0 || exists k :: 0 <= k < |column| && column[k].Str? && |column[k].s| == MaxTextLength(column)
    decreases |column|
  {
    if column != [] {
      var n := |column| - 1;
      MaxTextLengthSpec(column[..n]);
      assert forall k :: 0 <= k < n ==> column[..n][k] == column[k];
    }
  }

  /** `min(max_length + 2, 50)`. */
  function Width(column: seq<Cell>): (w: int)
    ensures 2 <= w <= 50
  {
    if MaxTextLength(column) + 2 < 50 then MaxTextLength(column) + 2 else 50
  }

  /** A column of the worksheet: its header cell, then its cell in every row. */
  function Column(s: Sheet, j: nat): seq<Cell>
    requires j < |s.header|
  {
    [Str(s.header[j])] + seq(|s.rows|, i requires 0 <= i < |s.rows| => if j < |s.rows[i]| then s.rows[i][j] else Blank)
  }

  /** The nested width loops: one width per column of the sheet. */
  method ColumnWidths(s: Sheet) returns (widths: seq<int>)
    ensures |widths| == |s.header|
    ensures forall j :: 0 <= j < |s.header| ==> widths[j] == Width(Column(s, j))
  {
    widths := [];
    for j := 0 to |s.header|
      invariant |widths| == j
      invariant forall i :: 0 <= i < j ==> widths[i] == Width(Column(s, i))
    {
      var column := Column(s, j);
      var maxLength := 0;
      for k := 0 to |column|
        invariant maxLength == MaxTextLength(column[..k])
      {
        assert column[..k + 1][..k] == column[..k];
        var c := column[k];
        if c.Str? && |c.s| > maxLength {
          maxLength := |c.s|;
        }
      }
      assert column[..|column|] == column;
      var adjusted := if maxLength + 2 < 50 then maxLength + 2 else 50;
      widths := widths + [adjusted];
    }
  }

  /**
   * The loop over `worksheet.columns`. A sheet written from a DataFrame with
   * no columns has no cells, yet openpyxl still reports its one column A,
   * whose only cell holds None: it counts as no text, so A gets width 2.
   */
  method WorksheetWidths(s: Sheet) returns (widths: seq<int>)
    ensures s.header != [] ==> |widths| == |s.header| && forall j :: 0 <= j < |widths| ==> widths[j] == Width(Column(s, j))
    ensures s.header == [] ==> widths == [2]
  {
    if s.header == [] {
      assert [Blank][..0] == [];
      widths := [Width([Blank])];
    } else {
      widths := ColumnWidths(s);
    }
  }

  /** A width is two more than the longest text in the column, header included, capped at 50. */
  lemma WidthFitsText(s: Sheet, j: nat)
    requires j < |s.header|
    ensures |s.header[j]| + 2 <= 50 ==> |s.header[j]| + 2 <= Width(Column(s, j))
    ensures forall i :: 0 <= i < |s.rows| && j < |s.rows[i]| && s.rows[i][j].Str? && |s.rows[i][j].s| + 2 <= 50
              ==> |s.rows[i][j].s| + 2 <= Width(Column(s, j))
  {
    var column := Column(s, j);
    MaxTextLengthSpec(column);
    assert column[0] == Str(s.header[j]);
    forall i | 0 <= i < |s.rows| && j < |s.rows[i]| && s.rows[i][j].Str?
      ensures |s.rows[i][j].s| <= MaxTextLength(column)
    {
      assert column[i + 1] == s.rows[i][j];
    }
  }

  // ---------------------------------------------------------------------------
  // Employee export
  // ---------------------------------------------------------------------------

  const FuncionarioHeader: seq<string> := ["ID", "Nome", "CPF", "Cargo", "Setor", "Data Admissão", "Telefone", "Email", "Ativo"]
  const FuncionarioFields: seq<string> := ["id", "nome", "cpf", "cargo", "setor", "data_admissao", "telefone", "email"]

  /** Python truthiness of a stored value; a number is false when its text is a zero. */
  predicate IsTruthy(c: Cell) {
    match c
    case Blank => false
    case Str(s) => s != ""
    case Num(r) => r != "0" && r != "0.0" && r != "-0.0"
    case Stamp(_, _) => true
    case Flag(b) => b
  }

  /** `'Sim' if func.get('ativo', True) else 'Não'`. */
  function AtivoText(d: Doc): (r: string)
    ensures r == "Sim" || r == "Não"
    ensures r == "Sim" <==> (Field(d, "ativo").None? || IsTruthy(Field(d, "ativo").value))
  {
    if IsTruthy(Field(d, "ativo").GetOr(Flag(true))) then "Sim" else "Não"
  }

  /** One employee's row: each field as stored, '' when the document lacks it, then `Ativo`. */
  function FuncionarioRow(d: Doc): (r: seq<Cell>)
    ensures |r| == |FuncionarioHeader|
  {
    seq(|FuncionarioFields|, j requires 0 <= j < |FuncionarioFields| => Field(d, FuncionarioFields[j]).GetOr(Str("")))
    + [Str(AtivoText(d))]
  }

  /** Each column holds the employee's field as stored, '' when it lacks it; the last holds Sim or Não. */
  lemma FuncionarioRowCells(d: Doc)
    ensures forall j :: 0 <= j < |FuncionarioFields| ==> FuncionarioRow(d)[j] == Field(d, FuncionarioFields[j]).GetOr(Str(""))
    ensures FuncionarioRow(d)[8] == Str(AtivoText(d))
  {
  }

  /** `export_funcionarios_to_excel`: the row loop, then the widths; no employees give a sheet without a header row. */
  method ExportFuncionarios(funcionarios: seq<Doc>) returns (sheet: Sheet, widths: seq<int>)
    ensures funcionarios != [] ==> sheet.header == FuncionarioHeader
    ensures funcionarios == [] ==> sheet == Sheet([], []) && widths == [2]
    ensures |sheet.rows| == |funcionarios|
    ensures forall i :: 0 <= i < |funcionarios| ==> sheet.rows[i] == FuncionarioRow(funcionarios[i])
    ensures funcionarios != [] ==> |widths| == |FuncionarioHeader| && forall j :: 0 <= j < |widths| ==> widths[j] == Width(Column(sheet, j))
  {
    var data: seq<seq<Cell>> := [];
    for i := 0 to |funcionarios|
      invariant |data| == i
      invariant forall k :: 0 <= k < i ==> data[k] == FuncionarioRow(funcionarios[k])
    {
      data := data + [FuncionarioRow(funcionarios[i])];
    }
    // `pd.DataFrame([])` has no columns, so nothing is written, not even a header row.
    sheet := if data == [] then Sheet([], []) else Sheet(FuncionarioHeader, data);
    widths := WorksheetWidths(sheet);
  }

  // ---------------------------------------------------------------------------
  // Employee import
  // ---------------------------------------------------------------------------

  const FuncionarioRequired: seq<string> := ["Nome", "CPF", "Cargo", "Setor", "Data Admissão"]

  /** An imported employee. */
  datatype FuncionarioImportado = FuncionarioImportado(
    nome: string,
    cpf: string,
    cargo: string,
    setor: string,
    dataAdmissao: string,
    telefone: Option<string>,
    email: Option<string>,
    ativo: bool)

  /** What the `except` makes of any failure. */
  function ImportError(message: string): string {
    "Erro ao processar arquivo Excel: " + message
  }

  /** A row whose Nome or CPF is missing is skipped. */
  predicate SkipRow(cols: seq<string>, row: seq<Cell>) {
    Get(cols, row, "Nome", Blank) == Blank || Get(cols, row, "CPF", Blank) == Blank
  }

  /** `row['Data Admissão']`: a text as it is, a timestamp's date; anything else has no `strftime`. */
  function DataAdmissao(c: Cell): (r: Result<string, string>)
    ensures c.Str? ==> r == Ok(c.s)
    ensures c.Stamp? ==> r == Ok(c.date)
    ensures r.Ok? <==> c.Str? || c.Stamp?
  {
    match c
    case Str(s) => Ok(s)
    case Stamp(d, _) => Ok(d)
    case Blank => Err("'float' object has no attribute 'strftime'")
    case Num(repr) => Err("'" + (if '.' in repr then "float" else "int") + "' object has no attribute 'strftime'")
    case Flag(_) => Err("'bool' object has no attribute 'strftime'")
  }

  /** `str(value).strip()`. */
  function TextOf(c: Cell): string {
    Strip(AsText(c))
  }

  /** `str(row.get(col, '')).strip()` unless the value is missing (an absent column reads as missing). */
  function OptionalOf(c: Cell): (r: Option<string>)
    ensures r.None? <==> c == Blank
  {
    if c == Blank then None else Some(TextOf(c))
  }

  /** The employee a row becomes from its cells, once its admission date is usable. */
  function FuncionarioFrom(nome: Cell, cpf: Cell, cargo: Cell, setor: Cell, data: string, telefone: Cell, email: Cell, ativo: Cell): (f: FuncionarioImportado)
    ensures f.nome == TextOf(nome) && f.cpf == TextOf(cpf) && f.cargo == TextOf(cargo) && f.setor == TextOf(setor)
    ensures f.dataAdmissao == data
    ensures f.telefone.None? <==> telefone == Blank
    ensures f.email.None? <==> email == Blank
    ensures f.ativo <==> ativo == Str("Sim")
  {
    FuncionarioImportado(TextOf(nome), TextOf(cpf), TextOf(cargo), TextOf(setor), data, OptionalOf(telefone), OptionalOf(email), ativo == Str("Sim"))
  }

  /** The employee one kept row becomes, or the error its admission date raises. */
  function FuncionarioOf(cols: seq<string>, row: seq<Cell>): (r: Result<FuncionarioImportado, string>)
    ensures r.Ok? <==> DataAdmissao(Get(cols, row, "Data Admissão", Blank)).Ok?
    ensures r.Ok? ==> r.value.nome == TextOf(Get(cols, row, "Nome", Blank)) && r.value.cpf == TextOf(Get(cols, row, "CPF", Blank))
    ensures r.Ok? ==> (r.value.ativo <==> Get(cols, row, "Ativo", Str("Sim")) == Str("Sim"))
  {
    match DataAdmissao(Get(cols, row, "Data Admissão", Blank))
    case Err(e) => Err(e)
    case Ok(data) =>
      Ok(FuncionarioFrom(Get(cols, row, "Nome", Blank), Get(cols, row, "CPF", Blank), Get(cols, row, "Cargo", Blank),
                         Get(cols, row, "Setor", Blank), data, Get(cols, row, "Telefone", Blank), Get(cols, row, "Email", Blank),
                         Get(cols, row, "Ativo", Str("Sim"))))
  }

  function Skipped(cols: seq<string>): seq<Cell> -> bool {
    row => SkipRow(cols, row)
  }

  function Converted(cols: seq<string>): seq<Cell> -> Result<FuncionarioImportado, string> {
    row => FuncionarioOf(cols, row)
  }

  // The row loop, for any skip test and any per-row conversion.

  /** A row that is not skipped and raises. */
  predicate RowFails<F>(skip: seq<Cell> -> bool, convert: seq<Cell> -> Result<F, string>, row: seq<Cell>) {
    !skip(row) && convert(row).Err?
  }

  /** One step of the row loop: skip the row, stop at what it raises, or append what it becomes. */
  function ImportStep<F>(skip: seq<Cell> -> bool, convert: seq<Cell> -> Result<F, string>,
                         acc: Result<seq<F>, string>, row: seq<Cell>): (r: Result<seq<F>, string>)
    ensures r.Err? <==> acc.Err? || RowFails(skip, convert, row)
    ensures r.Ok? ==> r.value == acc.value + (if skip(row) then [] else [convert(row).value])
  {
    match acc
    case Err(e) => Err(e)
    case Ok(fs) =>
      if skip(row) then Ok(fs)
      else match convert(row)
        case Err(e) => Err(e)
        case Ok(f) => Ok(fs + [f])
  }

  /** The row loop up to the first row that raises. */
  function ImportList<F>(skip: seq<Cell> -> bool, convert: seq<Cell> -> Result<F, string>, rows: seq<seq<Cell>>): Result<seq<F>, string>
    decreases |rows|
  {
    if rows == [] then Ok([])
    else ImportStep(skip, convert, ImportList(skip, convert, rows[..|rows| - 1]), rows[|rows| - 1])
  }

  /** Once a prefix fails, every longer prefix fails with the same error. */
  lemma {:induction false} ImportStopsAtError<F>(skip: seq<Cell> -> bool, convert: seq<Cell> -> Result<F, string>, rows: seq<seq<Cell>>, i: nat)
    requires i <= |rows| && ImportList(skip, convert, rows[..i]).Err?
    ensures ImportList(skip, convert, rows) == ImportList(skip, convert, rows[..i])
    decreases |rows| - i
  {
    if i < |rows| {
      assert rows[..i + 1][..i] == rows[..i];
      ImportStopsAtError(skip, convert, rows, i + 1);
    } else {
      assert rows[..i] == rows;
    }
  }

  function Kept(skip: seq<Cell> -> bool): seq<Cell> -> bool {
    row => !skip(row)
  }

  /** `fs` are what the rows `kept` become, one per row, in order. */
  predicate ConvertedAll<F(==)>(convert: seq<Cell> -> Result<F, string>, kept: seq<seq<Cell>>, fs: seq<F>) {
    |fs| == |kept| && forall i :: 0 <= i < |kept| ==> convert(kept[i]) == Ok(fs[i])
  }

  /** A successful import holds exactly what the kept rows become, in row order. */
  lemma {:induction false} ImportListKeeps<F>(skip: seq<Cell> -> bool, convert: seq<Cell> -> Result<F, string>, rows: seq<seq<Cell>>)
    ensures ImportList(skip, convert, rows).Ok? ==>
      ConvertedAll(convert, Filter(rows, Kept(skip)), ImportList(skip, convert, rows).value)
    decreases |rows|
  {
    if rows != [] && ImportList(skip, convert, rows).Ok? {
      var n := |rows| - 1;
      var prefix := rows[..n];
      ImportListKeeps(skip, convert, prefix);
      assert rows == prefix + [rows[n]];
      FilterSnoc(prefix, rows[n], Kept(skip));
    }
  }

  /** The import fails exactly when some row that is not skipped raises. */
  lemma {:induction false} ImportListFails<F>(skip: seq<Cell> -> bool, convert: seq<Cell> -> Result<F, string>, rows: seq<seq<Cell>>)
    ensures ImportList(skip, convert, rows).Err? <==> exists k :: 0 <= k < |rows| && RowFails(skip, convert, rows[k])
    decreases |rows|
  {
    if rows != [] {
      var n := |rows| - 1;
      var prefix := rows[..n];
      ImportListFails(skip, convert, prefix);
      if ImportList(skip, convert, prefix).Err? {
        var k :| 0 <= k < n && RowFails(skip, convert, prefix[k]);
        assert rows[k] == prefix[k];
      } else if !RowFails(skip, convert, rows[n]) {
        forall k | 0 <= k < |rows|
          ensures !RowFails(skip, convert, rows[k])
        {
          if k < n {
            assert rows[k] == prefix[k];
          }
        }
      }
    }
  }

  /** What `import_funcionarios_from_excel` returns, or the text of the `ValueError` it raises. */
  function ImportOutcome(frame: Result<Frame, string>): Result<seq<FuncionarioImportado>, string> {
    match frame
    case Err(e) => Err(ImportError(e))
    case Ok(f) =>
      var missing := MissingColumns(f.columns, FuncionarioRequired);
      if missing != [] then Err(ImportError("Colunas obrigatórias ausentes: " + Join(missing, ", ")))
      else match ImportList(Skipped(f.columns), Converted(f.columns), f.rows)
        case Err(e) => Err(ImportError(e))
        case Ok(fs) => Ok(fs)
  }

  /** `import_funcionarios_from_excel`: the column check, then the row loop. */
  method ImportFuncionarios(frame: Result<Frame, string>) returns (r: Result<seq<FuncionarioImportado>, string>)
    ensures r == ImportOutcome(frame)
  {
    if frame.Err? {
      return Err(ImportError(frame.error));
    }
    var cols := frame.value.columns;
    var missing := MissingColumns(cols, FuncionarioRequired);
    if missing != [] {
      return Err(ImportError("Colunas obrigatórias ausentes: " + Join(missing, ", ")));
    }
    var rows := ImportRows(cols, frame.value.rows);
    r := if rows.Err? then Err(ImportError(rows.error)) else Ok(rows.value);
  }

  /** The row loop of `import_funcionarios_from_excel`: skip, convert, stop at the first row that raises. */
  method ImportRows(cols: seq<string>, rows: seq<seq<Cell>>) returns (r: Result<seq<FuncionarioImportado>, string>)
    ensures r == ImportList(Skipped(cols), Converted(cols), rows)
  {
    ghost var skip, convert := Skipped(cols), Converted(cols);
    var funcionarios: seq<FuncionarioImportado> := [];
    for i := 0 to |rows|
      invariant ImportList(skip, convert, rows[..i]) == Ok(funcionarios)
    {
      assert rows[..i + 1][..i] == rows[..i];
      assert ImportList(skip, convert, rows[..i + 1]) == ImportStep(skip, convert, Ok(funcionarios), rows[i]);
      if SkipRow(cols, rows[i]) {
        assert skip(rows[i]);
        continue;
      }
      var f := FuncionarioOf(cols, rows[i]);
      assert !skip(rows[i]) && convert(rows[i]) == f;
      if f.Err? {
        ImportStopsAtError(skip, convert, rows, i + 1);
        return Err(f.error);
      }
      funcionarios := funcionarios + [f.value];
    }
    assert rows[..|rows|] == rows;
    r := Ok(funcionarios);
  }

  /**
   * A successful import read a frame holding every required column, and
   * returns exactly what its kept rows become, in row order; it fails exactly
   * when the file is unreadable, a required column is missing, or a kept row raises.
   */
  lemma ImportOutcomeSpec(frame: Result<Frame, string>)
    ensures var r := ImportOutcome(frame);
      r.Ok? <==> frame.Ok? && (forall k :: 0 <= k < |FuncionarioRequired| ==> FuncionarioRequired[k] in frame.value.columns)
                 && !exists i :: 0 <= i < |frame.value.rows| && RowFails(Skipped(frame.value.columns), Converted(frame.value.columns), frame.value.rows[i])
    ensures var r := ImportOutcome(frame);
      r.Ok? ==> ConvertedAll(Converted(frame.value.columns), Filter(frame.value.rows, Kept(Skipped(frame.value.columns))), r.value)
  {
    if frame.Ok? {
      ImportListFails(Skipped(frame.value.columns), Converted(frame.value.columns), frame.value.rows);
      ImportListKeeps(Skipped(frame.value.columns), Converted(frame.value.columns), frame.value.rows);
    }
  }

  /** The import fails naming every missing required column when some are missing. */
  lemma ImportNamesMissing(f: Frame)
    requires exists k :: 0 <= k < |FuncionarioRequired| && FuncionarioRequired[k] !in f.columns
    ensures ImportOutcome(Ok(f)) == Err(ImportError("Colunas obrigatórias ausentes: " + Join(MissingColumns(f.columns, FuncionarioRequired), ", ")))
  {
    var k :| 0 <= k < |FuncionarioRequired| && FuncionarioRequired[k] !in f.columns;
    assert FuncionarioRequired[k] in MissingColumns(f.columns, FuncionarioRequired);
  }

  /**
   * An export of no employees does not import back: its sheet has no
   * columns, so the import refuses it naming every required column.
   */
  lemma EmptyExportDoesNotImport()
    ensures ImportOutcome(Ok(Frame([], []))) == Err(ImportError("Colunas obrigatórias ausentes: " + Join(MissingColumns([], FuncionarioRequired), ", ")))
    ensures forall k :: 0 <= k < |FuncionarioRequired| ==> FuncionarioRequired[k] in MissingColumns([], FuncionarioRequired)
  {
    ImportNamesMissing(Frame([], []));
  }

  /** The `read_excel` of an exported cell: an empty text comes back as the missing value. */
  function ReadBack(c: Cell): Cell {
    if c == Str("") then Blank else c
  }

  /** A row as written, read back. */
  function ReadBackRow(row: seq<Cell>): (r: seq<Cell>)
    ensures |r| == |row| && forall j :: 0 <= j < |row| ==> r[j] == ReadBack(row[j])
  {
    seq(|row|, j requires 0 <= j < |row| => ReadBack(row[j]))
  }

  /** Text with nothing to strip: not empty, no whitespace at either end. */
  predicate Unpadded(s: string) {
    s != [] && !IsPySpace(s[0]) && !IsPySpace(s[|s| - 1])
  }

  /** Under distinct labels, each column reads back from its own position. */
  lemma GetDistinct(cols: seq<string>, row: seq<Cell>, j: nat, default: Cell)
    requires NoDuplicates(cols) && |row| == |cols| && j < |cols|
    ensures Get(cols, row, cols[j], default) == row[j]
  {
    assert cols[j] in cols;
    var i := IndexOf(cols, cols[j]);
    assert i <= j by {
      assert j < |cols[..j + 1]| && cols[..j + 1][j] == cols[j];
    }
  }

  lemma HeaderDistinct()
    ensures NoDuplicates(FuncionarioHeader)
  {
    var h := FuncionarioHeader;
    assert |h[0]| == 2 && |h[1]| == 4 && |h[2]| == 3 && |h[6]| == 8 && |h[5]| == 13;
    assert h[3][0] == 'C' && h[4][0] == 'S' && h[7][0] == 'E' && h[8][0] == 'A';
  }

  /** A text that reads back as the missing value when it is empty. */
  function Optional(s: string): Option<string> {
    if s == "" then None else Some(s)
  }

  /** A plain text comes back from its cell as it was. */
  lemma TextPlain(s: string)
    requires Unpadded(s)
    ensures TextOf(Str(s)) == s
  {
    StripUnpadded(s);
  }

  /** An optional plain text comes back from its read-back cell as it was. */
  lemma OptionalPlain(s: string)
    requires s == "" || Unpadded(s)
    ensures OptionalOf(ReadBack(Str(s))) == Optional(s)
  {
    if s != "" {
      StripUnpadded(s);
    }
  }

  /** Plain texts come back from their cells as they were, an empty one as missing. */
  lemma FuncionarioFromPlain(nome: string, cpf: string, cargo: string, setor: string, data: string,
                             telefone: string, email: string, ativo: string)
    requires Unpadded(nome) && Unpadded(cpf) && Unpadded(cargo) && Unpadded(setor)
    requires (telefone == "" || Unpadded(telefone)) && (email == "" || Unpadded(email))
    ensures FuncionarioFrom(Str(nome), Str(cpf), Str(cargo), Str(setor), data, ReadBack(Str(telefone)), ReadBack(Str(email)), Str(ativo))
         == FuncionarioImportado(nome, cpf, cargo, setor, data, Optional(telefone), Optional(email), ativo == "Sim")
  {
    TextPlain(nome);
    TextPlain(cpf);
    TextPlain(cargo);
    TextPlain(setor);
    OptionalPlain(telefone);
    OptionalPlain(email);
  }

  /** Under distinct labels laid out as the export writes them, the import reads each field from its own position. */
  lemma FuncionarioOfLayout(cols: seq<string>, row: seq<Cell>)
    requires NoDuplicates(cols) && |cols| == |row| == 9
    requires cols[1] == "Nome" && cols[2] == "CPF" && cols[3] == "Cargo" && cols[4] == "Setor" && cols[5] == "Data Admissão"
    requires cols[6] == "Telefone" && cols[7] == "Email" && cols[8] == "Ativo"
    ensures FuncionarioOf(cols, row) ==
      match DataAdmissao(row[5])
      case Err(e) => Err(e)
      case Ok(data) => Ok(FuncionarioFrom(row[1], row[2], row[3], row[4], data, row[6], row[7], row[8]))
  {
    GetDistinct(cols, row, 1, Blank);
    GetDistinct(cols, row, 2, Blank);
    GetDistinct(cols, row, 3, Blank);
    GetDistinct(cols, row, 4, Blank);
    GetDistinct(cols, row, 5, Blank);
    GetDistinct(cols, row, 6, Blank);
    GetDistinct(cols, row, 7, Blank);
    GetDistinct(cols, row, 8, Str("Sim"));
  }

  /** The exported header is such a layout. */
  lemma FuncionarioOfHeader(row: seq<Cell>)
    requires |row| == |FuncionarioHeader|
    ensures FuncionarioOf(FuncionarioHeader, row) ==
      match DataAdmissao(row[5])
      case Err(e) => Err(e)
      case Ok(data) => Ok(FuncionarioFrom(row[1], row[2], row[3], row[4], data, row[6], row[7], row[8]))
  {
    HeaderDistinct();
    FuncionarioOfLayout(FuncionarioHeader, row);
  }

  /**
   * An exported row read back and imported: plain texts come back as they
   * were, an empty phone or email as None, and `ativo` true exactly for Sim.
   */
  lemma ImportReadsExportedRow(row: seq<Cell>, nome: string, cpf: string, cargo: string, setor: string, data: string,
                               telefone: string, email: string, ativo: string)
    requires |row| == |FuncionarioHeader|
    requires Unpadded(nome) && Unpadded(cpf) && Unpadded(cargo) && Unpadded(setor)
    requires (telefone == "" || Unpadded(telefone)) && (email == "" || Unpadded(email))
    requires row[1] == Str(nome) && row[2] == Str(cpf) && row[3] == Str(cargo) && row[4] == Str(setor) && row[5] == Str(data)
    requires row[6] == ReadBack(Str(telefone)) && row[7] == ReadBack(Str(email)) && row[8] == Str(ativo)
    ensures FuncionarioOf(FuncionarioHeader, row) ==
      Ok(FuncionarioImportado(nome, cpf, cargo, setor, data, Optional(telefone), Optional(email), ativo == "Sim"))
  {
    FuncionarioOfHeader(row);
    FuncionarioFromPlain(nome, cpf, cargo, setor, data, telefone, email, ativo);
  }

  /**
   * Export then import: an employee whose exported cells (its stored fields,
   * by `FuncionarioRowCells`) are texts with nothing to strip comes back with
   * the same fields, an empty phone or email as None, and `ativo` as the
   * stored flag's truthiness (true when there is none). The admission date
   * must not be empty: an empty cell reads back as the missing value, which
   * has no `strftime`.
   */
  lemma ExportImportRoundTrip(d: Doc, nome: string, cpf: string, cargo: string, setor: string, data: string,
                              telefone: string, email: string)
    requires FuncionarioRow(d)[1..8] == [Str(nome), Str(cpf), Str(cargo), Str(setor), Str(data), Str(telefone), Str(email)]
    requires Unpadded(nome) && Unpadded(cpf) && Unpadded(cargo) && Unpadded(setor) && data != ""
    requires (telefone == "" || Unpadded(telefone)) && (email == "" || Unpadded(email))
    ensures FuncionarioOf(FuncionarioHeader, ReadBackRow(FuncionarioRow(d))) ==
      Ok(FuncionarioImportado(nome, cpf, cargo, setor, data, Optional(telefone), Optional(email),
                              Field(d, "ativo").None? || IsTruthy(Field(d, "ativo").value)))
  {
    var exported := FuncionarioRow(d);
    var row := ReadBackRow(exported);
    assert exported[1] == Str(nome) && exported[2] == Str(cpf) && exported[3] == Str(cargo) && exported[4] == Str(setor);
    assert exported[5] == Str(data) && exported[6] == Str(telefone) && exported[7] == Str(email);
    FuncionarioRowCells(d);
    ImportReadsExportedRow(row, nome, cpf, cargo, setor, data, telefone, email, AtivoText(d));
  }

  // ---------------------------------------------------------------------------
  // Attendance export
  // ---------------------------------------------------------------------------

  const FrequenciaHeader: seq<string> := ["ID", "Funcionário ID", "Data", "Hora Entrada", "Hora Saída", "Horas Trabalhadas", "Observações"]

  /** One attendance row; the hours default to 0 and the note is read from `observacoes`. */
  function FrequenciaRow(d: Doc): (r: seq<Cell>)
    ensures |r| == |FrequenciaHeader|
    ensures r[5] == Field(d, "horas_trabalhadas").GetOr(Num("0"))
    ensures r[6] == Field(d, "observacoes").GetOr(Str(""))
  {
    [Field(d, "id").GetOr(Str("")), Field(d, "funcionario_id").GetOr(Str("")), Field(d, "data").GetOr(Str("")),
     Field(d, "hora_entrada").GetOr(Str("")), Field(d, "hora_saida").GetOr(Str("")),
     Field(d, "horas_trabalhadas").GetOr(Num("0")), Field(d, "observacoes").GetOr(Str(""))]
  }

  /** `export_frequencia_to_excel`: the row loop, then the widths; no records give a sheet without a header row. */
  method ExportFrequencia(registros: seq<Doc>) returns (sheet: Sheet, widths: seq<int>)
    ensures registros != [] ==> sheet.header == FrequenciaHeader
    ensures registros == [] ==> sheet == Sheet([], []) && widths == [2]
    ensures |sheet.rows| == |registros|
    ensures forall i :: 0 <= i < |registros| ==> sheet.rows[i] == FrequenciaRow(registros[i])
    ensures registros != [] ==> |widths| == |FrequenciaHeader| && forall j :: 0 <= j < |widths| ==> widths[j] == Width(Column(sheet, j))
  {
    var data: seq<seq<Cell>> := [];
    for i := 0 to |registros|
      invariant |data| == i
      invariant forall k :: 0 <= k < i ==> data[k] == FrequenciaRow(registros[k])
    {
      data := data + [FrequenciaRow(registros[i])];
    }
    // `pd.DataFrame([])` has no columns, so nothing is written, not even a header row.
    sheet := if data == [] then Sheet([], []) else Sheet(FrequenciaHeader, data);
    widths := WorksheetWidths(sheet);
  }

  /**
   * Attendance records store their note under `observacao`; one without an
   * `observacoes` field exports an empty Observações cell, whatever its note.
   */
  lemma NoteUnderObservacaoIsLost(d: Doc, note: string)
    requires ("observacao", Str(note)) in d
    requires "observacoes" !in FieldNames(d)
    ensures FrequenciaRow(d)[6] == Str("")
  {
  }
}
