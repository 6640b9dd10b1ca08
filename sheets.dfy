/**
 * Spreadsheet data as the import and export endpoints see it once pandas has
 * read or is about to write a file: cells, frames of positional rows under a
 * header, and stored documents as insertion-ordered field lists.
 */
module Sheets {
  import opened Wrappers
  import opened Text
  import opened Lists
  import opened Sorting

  /**
   * One cell or stored value: the missing value (pandas' `NaN` in a frame,
   * `None` in a document), a text, a number (held as the text `str()` gives
   * it), a timestamp (its `%Y-%m-%d` date and its `%H:%M:%S` time), or a
   * boolean.
   */
  datatype Cell = Blank | Str(s: string) | Num(repr: string) | Stamp(date: string, time: string) | Flag(b: bool)

  /** Python's `str(value)` of a cell. */
  function AsText(c: Cell): string {
    match c
    case Blank => "nan"
    case Str(s) => s
    case Num(r) => r
    case Stamp(d, t) => d + " " + t
    case Flag(b) => if b then "True" else "False"
  }

  /** `pd.isna(value) or value == '' or value is None`. */
  predicate IsEmptyValue(c: Cell) {
    c == Blank || c == Str("")
  }

  /** A sheet as written: the header labels, then one row of cells per record. */
  datatype Sheet = Sheet(header: seq<string>, rows: seq<seq<Cell>>)

  /** A frame: its column labels and its rows, each row a cell per column. */
  datatype Frame = Frame(columns: seq<string>, rows: seq<seq<Cell>>)

  /** The position of the first label `c`, or -1. */
  function IndexOf(cols: seq<string>, c: string): (r: int)
    ensures -1 <= r < |cols|
    ensures r >= 0 ==> cols[r] == c && c !in cols[..r]
    ensures r < 0 <==> c !in cols
  {
    if |cols| == 0 then -1
    else if cols[0] == c then 0
    else
      var r := IndexOf(cols[1..], c);
      assert cols == [cols[0]] + cols[1..];
      if r < 0 then -1 else (assert cols[..r + 1] == [cols[0]] + cols[1..][..r]; r + 1)
  }

  /**
   * `row.get(col, default)`: the row's cell under the first label `col`, or
   * `default` when the frame has no such column (a row shorter than the
   * header reads as missing values).
   */
  function Get(cols: seq<string>, row: seq<Cell>, col: string, default: Cell): (r: Cell)
    ensures col !in cols ==> r == default
    ensures var i := IndexOf(cols, col); 0 <= i < |row| ==> r == row[i]
  {
    var i := IndexOf(cols, col);
    if i < 0 then default else if i < |row| then row[i] else Blank
  }

  /** `filename.endswith(('.xlsx', '.xls', '.csv'))`. */
  predicate AllowedUpload(filename: string) {
    EndsWith(filename, ".xlsx") || EndsWith(filename, ".xls") || EndsWith(filename, ".csv")
  }

  predicate EndsWith(s: string, suffix: string) {
    |suffix| <= |s| && s[|s| - |suffix|..] == suffix
  }

  const UploadTypeError := HttpError(400, "Arquivo deve ser .xlsx, .xls ou .csv")

  // ---------------------------------------------------------------------------
  // Stored documents and the export query
  // ---------------------------------------------------------------------------

  /** A stored document: its fields in insertion order, each name once. */
  type Doc = seq<(string, Cell)>

  function FieldNames(d: Doc): seq<string> {
    seq(|d|, k requires 0 <= k < |d| => d[k].0)
  }

  /** The value of field `f`, when the document has it. */
  function Field(d: Doc, f: string): (r: Option<Cell>)
    ensures r.None? <==> f !in FieldNames(d)
    ensures r.Some? ==> (f, r.value) in d
  {
    var i := IndexOf(FieldNames(d), f);
    if i < 0 then None else Some(d[i].1)
  }

  /** The text of a document's `data` field; other values never satisfy a string bound. */
  function DataOf(d: Doc): Option<string> {
    match Field(d, "data")
    case Some(Str(s)) => Some(s)
    case _ => None
  }

  /** The sort key of `sort("data", -1)`: documents without a text date sort as the least. */
  function DataKey(d: Doc): string {
    DataOf(d).GetOr("")
  }

  /**
   * The export query: `{"data": {"$gte": inicio, "$lte": fim}}` with each
   * bound only when it is truthy, and no condition at all when neither is.
   */
  predicate InRange(d: Doc, inicio: Option<string>, fim: Option<string>) {
    (Truthy(inicio) ==> DataOf(d).Some? && LexLe(inicio.value, DataOf(d).value))
    && (Truthy(fim) ==> DataOf(d).Some? && LexLe(DataOf(d).value, fim.value))
  }

  /** The most documents `to_list(length=10000)` returns. */
  const ExportLimit := 10000

  function InRangeTest(inicio: Option<string>, fim: Option<string>): Doc -> bool {
    d => InRange(d, inicio, fim)
  }

  /** `find(query).sort("data", -1).to_list(length=10000)`. */
  function FindForExport(docs: seq<Doc>, inicio: Option<string>, fim: Option<string>): (r: seq<Doc>)
    ensures forall k :: 0 <= k < |r| ==> r[k] in docs && InRange(r[k], inicio, fim)
    ensures SortedBy(r, DataKey, true) && |r| <= ExportLimit
    ensures |Filter(docs, InRangeTest(inicio, fim))| <= ExportLimit ==>
      multiset(r) == multiset(Filter(docs, InRangeTest(inicio, fim)))
    ensures |r| == if |Filter(docs, InRangeTest(inicio, fim))| < ExportLimit then |Filter(docs, InRangeTest(inicio, fim))| else ExportLimit
    ensures FirstInOrder(r, Filter(docs, InRangeTest(inicio, fim)), DataKey, true)
  {
    ExportTakesSorted(docs, inicio, fim);
    TakeSortByFirst(Filter(docs, InRangeTest(inicio, fim)), ExportLimit, DataKey, true);
    Take(SortBy(Filter(docs, InRangeTest(inicio, fim)), DataKey, true), ExportLimit)
  }

  lemma ExportTakesSorted(docs: seq<Doc>, inicio: Option<string>, fim: Option<string>)
    ensures var matching := Filter(docs, InRangeTest(inicio, fim));
      var r := Take(SortBy(matching, DataKey, true), ExportLimit);
      (forall k :: 0 <= k < |r| ==> r[k] in docs && InRange(r[k], inicio, fim))
      && SortedBy(r, DataKey, true)
      && (|matching| <= ExportLimit ==> multiset(r) == multiset(matching))
  {
    var p := InRangeTest(inicio, fim);
    var r := Take(SortBy(Filter(docs, p), DataKey, true), ExportLimit);
    TakeSortedFilter(docs, p, DataKey, ExportLimit);
    forall k | 0 <= k < |r|
      ensures InRange(r[k], inicio, fim)
    {
      assert p(r[k]);
    }
  }

  /** The first n of a sorted filtered list: members that pass, still sorted, all of them when they fit. */
  lemma TakeSortedFilter<T>(s: seq<T>, p: T -> bool, key: T -> string, n: nat)
    ensures var matching := Filter(s, p);
      var r := Take(SortBy(matching, key, true), n);
      (forall k :: 0 <= k < |r| ==> r[k] in s && p(r[k]))
      && SortedBy(r, key, true)
      && (|matching| <= n ==> multiset(r) == multiset(matching))
  {
    var matching := Filter(s, p);
    var sorted := SortBy(matching, key, true);
    var r := Take(sorted, n);
    forall k | 0 <= k < |r|
      ensures r[k] in s && p(r[k])
    {
      assert r[k] == sorted[k];
      assert sorted[k] in multiset(matching);
    }
    if |matching| <= n {
      assert r == sorted;
    }
  }

  /** The result is empty exactly when no stored document is in range. */
  lemma FindForExportEmpty(docs: seq<Doc>, inicio: Option<string>, fim: Option<string>)
    ensures FindForExport(docs, inicio, fim) == [] <==> forall k :: 0 <= k < |docs| ==> !InRange(docs[k], inicio, fim)
  {
    var p := InRangeTest(inicio, fim);
    if exists k :: 0 <= k < |docs| && InRange(docs[k], inicio, fim) {
      var k :| 0 <= k < |docs| && InRange(docs[k], inicio, fim);
      assert p(docs[k]);
      FilterKeeps(docs, p, k);
    } else {
      FilterKeepsAllOut(docs, p);
    }
  }

  /** The cell of a document under a column label: a missing field is pandas' missing value. */
  function CellOf(d: Doc, col: string): Cell {
    Field(d, col).GetOr(Blank)
  }

  /** The rows `pd.DataFrame(docs)` holds under the given labels, one per document, in order. */
  function DocRows(docs: seq<Doc>, cols: seq<string>): (rows: seq<seq<Cell>>)
    ensures |rows| == |docs|
    ensures forall k :: 0 <= k < |docs| ==> |rows[k]| == |cols|
    ensures forall k, j :: 0 <= k < |docs| && 0 <= j < |cols| ==> rows[k][j] == CellOf(docs[k], cols[j])
  {
    seq(|docs|, k requires 0 <= k < |docs| => seq(|cols|, j requires 0 <= j < |cols| => CellOf(docs[k], cols[j])))
  }
}
