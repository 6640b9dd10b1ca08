/**
 * The second set of spreadsheet endpoints (attendance, meals and materials
 * imports; meals and materials exports). Unlike the main spreadsheet router
 * they neither map nor clean columns: cells are taken as `str()` gives them,
 * no row is skipped, only the first missing column is reported, and every
 * exception, the 400s included, leaves as a 500.
 */
module ExcelImportacao {
  import opened Wrappers
  import opened Text
  import opened Lists
  import opened Sheets
  import opened ImportRows
  import ExcelRouter

  // ---------------------------------------------------------------------------
  // Required columns
  // ---------------------------------------------------------------------------

  /** `required[i]` is absent and every column required before it is present. */
  predicate FirstAbsentAt(cols: seq<string>, required: seq<string>, i: int) {
    0 <= i < |required| && required[i] !in cols && forall k :: 0 <= k < i ==> required[k] in cols
  }

  /** The `for col in required_columns` loop: the first absent column, if any. */
  method FirstMissing(cols: seq<string>, required: seq<string>) returns (missing: Option<string>)
    ensures missing.None? <==> forall k :: 0 <= k < |required| ==> required[k] in cols
    ensures missing.Some? ==> exists i :: FirstAbsentAt(cols, required, i) && missing.value == required[i]
  {
    for k := 0 to |required|
      invariant forall i :: 0 <= i < k ==> required[i] in cols
    {
      if required[k] !in cols {
        assert FirstAbsentAt(cols, required, k);
        return Some(required[k]);
      }
    }
    return None;
  }

  /** The column reported is the first of those the main router lists as missing. */
  lemma FirstMissingIsFirstListed(cols: seq<string>, required: seq<string>, i: int)
    requires FirstAbsentAt(cols, required, i)
    ensures var missing := ExcelRouter.MissingColumns(cols, required);
      missing != [] && missing[0] == required[i]
  {
    FilterFirst(required, c => c !in cols, i);
  }

  function MissingColumnError(col: string): HttpError {
    HttpError(400, "Coluna obrigatória ausente: " + col)
  }

  /**
   * What `except Exception` makes of an `HTTPException` raised inside the
   * `try`: a 500 whose detail is the exception's text, "status: detail".
   */
  function Rewrapped(e: HttpError): (r: HttpError)
    ensures r.status == 500
    ensures r.detail == IntToString(e.status) + ": " + e.detail
  {
    HttpError(500, IntToString(e.status) + ": " + e.detail)
  }

  // ---------------------------------------------------------------------------
  // Rows
  // ---------------------------------------------------------------------------

  /** Rows are never skipped here. */
  predicate KeepAll<R>(r: R) {
    true
  }

  /** The attendance document of one row: every field is a cell's `str()`. */
  datatype FrequenciaTexto = FrequenciaTexto(
    funcionarioId: string,
    data: string,
    horaEntrada: string,
    horaSaida: string,
    tipoDia: string,
    observacao: string)

  function BuildFrequencia(cols: seq<string>, row: seq<Cell>): (r: Result<FrequenciaTexto, string>)
    ensures r.Ok?
    ensures "tipo_dia" !in cols ==> r.value.tipoDia == "util"
    ensures "hora_entrada" !in cols ==> r.value.horaEntrada == ""
    ensures Get(cols, row, "data", Blank) == Blank ==> r.value.data == "nan"
  {
    Ok(FrequenciaTexto(
      AsText(Get(cols, row, "funcionario_id", Blank)),
      AsText(Get(cols, row, "data", Blank)),
      AsText(Get(cols, row, "hora_entrada", Str(""))),
      AsText(Get(cols, row, "hora_saida", Str(""))),
      AsText(Get(cols, row, "tipo_dia", Str("util"))),
      AsText(Get(cols, row, "observacao", Str("")))))
  }

  /** The meal document of one row, its amounts aside. */
  datatype AlimentacaoTexto = AlimentacaoTexto(
    funcionarioId: string,
    nome: string,
    data: string,
    tipoRefeicao: string,
    fornecedor: string)

  /**
   * The meal row: `float(valor_unitario)` is evaluated before
   * `int(quantidade)`; a conversion that raises (its message given by
   * `floatError`, `intError`) makes the row an error.
   */
  function BuildAlimentacao(floatError: Cell -> Option<string>, intError: Cell -> Option<string>,
                            cols: seq<string>, row: seq<Cell>): (r: Result<AlimentacaoTexto, string>)
    ensures var fe := floatError(Get(cols, row, "valor_unitario", Num("0")));
      var ie := intError(Get(cols, row, "quantidade", Num("1")));
      (r.Err? <==> fe.Some? || ie.Some?)
      && (fe.Some? ==> r == Err(fe.value))
      && (fe.None? && ie.Some? ==> r == Err(ie.value))
  {
    var fe := floatError(Get(cols, row, "valor_unitario", Num("0")));
    var ie := intError(Get(cols, row, "quantidade", Num("1")));
    if fe.Some? then Err(fe.value)
    else if ie.Some? then Err(ie.value)
    else
      Ok(AlimentacaoTexto(
        AsText(Get(cols, row, "funcionario_id", Blank)),
        AsText(Get(cols, row, "nome", Str(""))),
        AsText(Get(cols, row, "data", Blank)),
        AsText(Get(cols, row, "tipo_refeicao", Blank)),
        AsText(Get(cols, row, "fornecedor", Str("")))))
  }

  function AlimentacaoBuilder(floatError: Cell -> Option<string>, intError: Cell -> Option<string>)
    : (seq<string>, seq<Cell>) -> Result<AlimentacaoTexto, string>
  {
    (cols, row) => BuildAlimentacao(floatError, intError, cols, row)
  }

  /** The material document of one row, its amounts aside. */
  datatype MaterialTexto = MaterialTexto(
    data: string,
    descricao: string,
    localUso: string,
    categoria: string,
    autorizadoPor: string)

  /** The material row: `float(quantidade)` is evaluated before `float(valor_unitario)`. */
  function BuildMaterial(floatError: Cell -> Option<string>, cols: seq<string>, row: seq<Cell>)
    : (r: Result<MaterialTexto, string>)
    ensures var qe := floatError(Get(cols, row, "quantidade", Num("1")));
      var ve := floatError(Get(cols, row, "valor_unitario", Num("0")));
      (r.Err? <==> qe.Some? || ve.Some?)
      && (qe.Some? ==> r == Err(qe.value))
      && (qe.None? && ve.Some? ==> r == Err(ve.value))
  {
    var qe := floatError(Get(cols, row, "quantidade", Num("1")));
    var ve := floatError(Get(cols, row, "valor_unitario", Num("0")));
    if qe.Some? then Err(qe.value)
    else if ve.Some? then Err(ve.value)
    else
      Ok(MaterialTexto(
        AsText(Get(cols, row, "data", Blank)),
        AsText(Get(cols, row, "descricao", Blank)),
        AsText(Get(cols, row, "local_uso", Blank)),
        AsText(Get(cols, row, "categoria", Str(""))),
        AsText(Get(cols, row, "autorizado_por", Str("")))))
  }

  function MaterialBuilder(floatError: Cell -> Option<string>): (seq<string>, seq<Cell>) -> Result<MaterialTexto, string> {
    (cols, row) => BuildMaterial(floatError, cols, row)
  }

  // ---------------------------------------------------------------------------
  // The import pipeline
  // ---------------------------------------------------------------------------

  /** The response: totals and every error entry. */
  datatype ImportResponse = ImportResponse(message: string, totalProcessados: nat, criados: nat, erros: nat,
                                           detalhesErros: seq<RowError>)

  /** An upload as these endpoints handle it: the error they raise, or the row loop's lists. */
  function UploadOutcome<R>(filename: string, frame: Result<Frame, string>, required: seq<string>,
                            build: (seq<string>, seq<Cell>) -> Result<R, string>, inserts: seq<Insert>)
    : Result<(nat, Import<R>), HttpError>
    requires frame.Ok? ==> |inserts| == |frame.value.rows|
  {
    if !AllowedUpload(filename) then Err(Rewrapped(UploadTypeError))
    else if frame.Err? then Err(HttpError(500, frame.error))
    else
      var f := frame.value;
      var missing := ExcelRouter.MissingColumns(f.columns, required);
      if missing != [] then Err(Rewrapped(MissingColumnError(missing[0])))
      else Ok((|f.rows|, Run(f.columns, f.rows, build, KeepAll, inserts)))
  }

  /**
   * An upload ends in a 500 in every failing case; a processed one counts
   * every row as created or failed, each failure at its row's line.
   */
  lemma UploadOutcomeCounts<R>(filename: string, frame: Result<Frame, string>, required: seq<string>,
                               build: (seq<string>, seq<Cell>) -> Result<R, string>, inserts: seq<Insert>)
    requires frame.Ok? ==> |inserts| == |frame.value.rows|
    ensures var o := UploadOutcome(filename, frame, required, build, inserts);
      (o.Err? ==> o.error.status == 500)
      && (o.Ok? ==> frame.Ok? && (forall k :: 0 <= k < |required| ==> required[k] in frame.value.columns)
                    && o.value.0 == |frame.value.rows|
                    && |o.value.1.created| + |o.value.1.errors| == o.value.0
                    && ErrorsFromRows(o.value.1.errors, frame.value.columns, frame.value.rows, build, KeepAll, inserts)
                    && LinesIncrease(o.value.1.errors))
  {
    var o := UploadOutcome(filename, frame, required, build, inserts);
    if o.Ok? {
      var f := frame.value;
      var missing := ExcelRouter.MissingColumns(f.columns, required);
      assert forall k :: 0 <= k < |required| ==> required[k] !in missing;
      NoSkipsCountsAll(f.columns, f.rows, build, KeepAll, inserts);
      RunCounts(f.columns, f.rows, build, KeepAll, inserts);
      RunErrors(f.columns, f.rows, build, KeepAll, inserts);
    }
  }

  /** A frame missing a required column is refused naming the first one missing, in required order. */
  lemma UploadNamesFirstMissing<R>(filename: string, f: Frame, required: seq<string>,
                                   build: (seq<string>, seq<Cell>) -> Result<R, string>, inserts: seq<Insert>, i: int)
    requires |inserts| == |f.rows| && AllowedUpload(filename)
    requires FirstAbsentAt(f.columns, required, i)
    ensures UploadOutcome(filename, Ok(f), required, build, inserts) == Err(Rewrapped(MissingColumnError(required[i])))
  {
    FirstMissingIsFirstListed(f.columns, required, i);
  }

  /** The steps of an upload: extension, reading, the first missing column, the row loop. */
  method ImportUpload<R>(filename: string, frame: Result<Frame, string>, required: seq<string>,
                         build: (seq<string>, seq<Cell>) -> Result<R, string>, inserts: seq<Insert>)
    returns (r: Result<ImportResponse, HttpError>, stored: seq<R>)
    requires frame.Ok? ==> |inserts| == |frame.value.rows|
    ensures match UploadOutcome(filename, frame, required, build, inserts)
      case Err(e) => r == Err(e) && stored == []
      case Ok((total, run)) =>
        r == Ok(ImportResponse("Importação concluída", total, |run.created|, |run.errors|, run.errors))
        && stored == run.stored
  {
    if !AllowedUpload(filename) {
      return Err(Rewrapped(UploadTypeError)), [];
    }
    if frame.Err? {
      return Err(HttpError(500, frame.error)), [];
    }
    var f := frame.value;
    var missing := FirstMissing(f.columns, required);
    if missing.Some? {
      ghost var i :| FirstAbsentAt(f.columns, required, i) && missing.value == required[i];
      FirstMissingIsFirstListed(f.columns, required, i);
      return Err(Rewrapped(MissingColumnError(missing.value))), [];
    }
    var created, errors;
    stored, created, errors := ImportLoop(f.columns, f.rows, build, KeepAll, inserts);
    r := Ok(ImportResponse("Importação concluída", |f.rows|, |created|, |errors|, errors));
  }

  const FrequenciaRequired: seq<string> := ["funcionario_id", "data"]
  const AlimentacaoRequired: seq<string> := ["funcionario_id", "data", "tipo_refeicao"]
  const MateriaisRequired: seq<string> := ["data", "descricao", "local_uso"]

  method ImportFrequencia(filename: string, frame: Result<Frame, string>, inserts: seq<Insert>)
    returns (r: Result<ImportResponse, HttpError>, stored: seq<FrequenciaTexto>)
    requires frame.Ok? ==> |inserts| == |frame.value.rows|
    ensures match UploadOutcome(filename, frame, FrequenciaRequired, BuildFrequencia, inserts)
      case Err(e) => r == Err(e) && stored == []
      case Ok((total, run)) =>
        r == Ok(ImportResponse("Importação concluída", total, |run.created|, |run.errors|, run.errors))
        && stored == run.stored
  {
    r, stored := ImportUpload(filename, frame, FrequenciaRequired, BuildFrequencia, inserts);
  }

  method ImportAlimentacao(filename: string, frame: Result<Frame, string>, inserts: seq<Insert>,
                           floatError: Cell -> Option<string>, intError: Cell -> Option<string>)
    returns (r: Result<ImportResponse, HttpError>, stored: seq<AlimentacaoTexto>)
    requires frame.Ok? ==> |inserts| == |frame.value.rows|
    ensures match UploadOutcome(filename, frame, AlimentacaoRequired, AlimentacaoBuilder(floatError, intError), inserts)
      case Err(e) => r == Err(e) && stored == []
      case Ok((total, run)) =>
        r == Ok(ImportResponse("Importação concluída", total, |run.created|, |run.errors|, run.errors))
        && stored == run.stored
  {
    r, stored := ImportUpload(filename, frame, AlimentacaoRequired, AlimentacaoBuilder(floatError, intError), inserts);
  }

  method ImportMateriais(filename: string, frame: Result<Frame, string>, inserts: seq<Insert>,
                         floatError: Cell -> Option<string>)
    returns (r: Result<ImportResponse, HttpError>, stored: seq<MaterialTexto>)
    requires frame.Ok? ==> |inserts| == |frame.value.rows|
    ensures match UploadOutcome(filename, frame, MateriaisRequired, MaterialBuilder(floatError), inserts)
      case Err(e) => r == Err(e) && stored == []
      case Ok((total, run)) =>
        r == Ok(ImportResponse("Importação concluída", total, |run.created|, |run.errors|, run.errors))
        && stored == run.stored
  {
    r, stored := ImportUpload(filename, frame, MateriaisRequired, MaterialBuilder(floatError), inserts);
  }

  /** A rewrapped 400 reads "400: " followed by its detail. */
  lemma Rewrapped400(d: string)
    ensures Rewrapped(HttpError(400, d)) == HttpError(500, "400: " + d)
  {
    assert NatToString(4) == "4";
    assert NatToString(40) == NatToString(4) + [DigitChar(0)];
    assert NatToString(400) == NatToString(40) + [DigitChar(0)];
    assert IntToString(400) + ": " == "400: ";
  }

  // ---------------------------------------------------------------------------
  // Exports
  // ---------------------------------------------------------------------------

  /** Every field name of the documents, document after document. */
  function AllFieldNames(docs: seq<Doc>): seq<string>
    decreases |docs|
  {
    if docs == [] then [] else AllFieldNames(docs[..|docs| - 1]) + FieldNames(docs[|docs| - 1])
  }

  lemma {:induction false} AllFieldNamesSpec(docs: seq<Doc>, c: string)
    ensures c in AllFieldNames(docs) <==> exists k :: 0 <= k < |docs| && c in FieldNames(docs[k])
    decreases |docs|
  {
    if docs != [] {
      var n := |docs| - 1;
      AllFieldNamesSpec(docs[..n], c);
      if c in AllFieldNames(docs[..n]) {
        var k :| 0 <= k < n && c in FieldNames(docs[..n][k]);
        assert docs[..n][k] == docs[k];
      }
      if exists k :: 0 <= k < |docs| && c in FieldNames(docs[k]) {
        var k :| 0 <= k < |docs| && c in FieldNames(docs[k]);
        if k < n {
          assert docs[..n][k] == docs[k];
        }
      }
    }
  }

  /** The columns of `pd.DataFrame(docs)`: every field, in order of first appearance. */
  function FrameColumns(docs: seq<Doc>): seq<string> {
    Distinct(AllFieldNames(docs))
  }

  /** `df.drop('_id', errors='ignore')` once the frame is not empty. */
  function ExportLabels(docs: seq<Doc>): (r: seq<string>)
    ensures NoDuplicates(r)
    ensures forall c :: c in r <==> c != "_id" && exists k :: 0 <= k < |docs| && c in FieldNames(docs[k])
  {
    var all := FrameColumns(docs);
    var r := Filter(all, c => c != "_id");
    forall c
      ensures c in r <==> c != "_id" && exists k :: 0 <= k < |docs| && c in FieldNames(docs[k])
    {
      AllFieldNamesSpec(docs, c);
      if c in r {
        DistinctWithin(AllFieldNames(docs), c);
      }
      if c != "_id" && c in AllFieldNames(docs) {
        var i :| 0 <= i < |AllFieldNames(docs)| && AllFieldNames(docs)[i] == c;
        DistinctCovers(AllFieldNames(docs), i);
        var j :| 0 <= j < |all| && all[j] == c;
        FilterKeeps(all, c => c != "_id", j);
      }
    }
    FilterNoDuplicates(all, c => c != "_id");
    r
  }

  /**
   * The meals and materials export: the documents in the date range, newest
   * first, under every field they have but `_id` (named as stored); no
   * documents give an empty sheet, not an error.
   */
  function ExportAll(docs: seq<Doc>, inicio: Option<string>, fim: Option<string>): (s: Sheet)
    ensures var found := FindForExport(docs, inicio, fim);
      s.header == ExportLabels(found) && s.rows == DocRows(found, ExportLabels(found))
    ensures (forall k :: 0 <= k < |docs| ==> !InRange(docs[k], inicio, fim)) ==> s == Sheet([], [])
  {
    FindForExportEmpty(docs, inicio, fim);
    var found := FindForExport(docs, inicio, fim);
    Sheet(ExportLabels(found), DocRows(found, ExportLabels(found)))
  }

}
