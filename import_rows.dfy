/**
 * The row loop every import endpoint runs over `df.iterrows()`: build the
 * record inside a `try`, skip it when its key fields are empty, insert it,
 * and record either the new `_id` in `created` or the line and message of the
 * exception in `errors`. The endpoints differ only in how a record is built
 * and which records are skipped, so those are parameters here.
 */
module ImportRows {
  import opened Wrappers
  import opened Sheets

  /** What `insert_one` does with one record: it yields the new `_id`, or it raises. */
  datatype Insert = Inserted(id: string) | Raised(message: string)

  /**
   * An entry of `errors`: the spreadsheet line of the row (its index plus 2,
   * for the header line and lines counted from 1) and `str(e)`.
   */
  datatype RowError = RowError(linha: int, erro: string)

  /** How one row's `try` block ends. */
  datatype Step<R> = Skipped | Created(rec: R, id: string) | Failed(erro: string)

  /**
   * One row: `build` fails with the exception's message or yields the record;
   * a record `keep` rejects is skipped (`continue`); a kept one is inserted
   * with outcome `ins`.
   */
  function RowStep<R>(cols: seq<string>, row: seq<Cell>, build: (seq<string>, seq<Cell>) -> Result<R, string>, keep: R -> bool, ins: Insert): Step<R> {
    match build(cols, row)
    case Err(e) => Failed(e)
    case Ok(rec) =>
      if !keep(rec) then Skipped
      else
        match ins
        case Inserted(id) => Created(rec, id)
        case Raised(e) => Failed(e)
  }

  /** The three lists the loop fills: the records inserted, `created` and `errors`. */
  datatype Import<R> = Import(stored: seq<R>, created: seq<string>, errors: seq<RowError>)

  /** The lists after row k ends in `step`. */
  function Record<R>(acc: Import<R>, k: int, step: Step<R>): Import<R> {
    match step
    case Skipped => acc
    case Created(rec, id) => Import(acc.stored + [rec], acc.created + [id], acc.errors)
    case Failed(e) => Import(acc.stored, acc.created, acc.errors + [RowError(k + 2, e)])
  }

  /**
   * The lists after the loop, row by row; `inserts[k]` is what inserting row
   * k's record would do.
   */
  function Run<R>(cols: seq<string>, rows: seq<seq<Cell>>, build: (seq<string>, seq<Cell>) -> Result<R, string>, keep: R -> bool,
                  inserts: seq<Insert>): Import<R>
    requires |inserts| == |rows|
    decreases |rows|
  {
    if rows == [] then Import([], [], [])
    else
      var n := |rows| - 1;
      Record(Run(cols, rows[..n], build, keep, inserts[..n]), n, RowStep(cols, rows[n], build, keep, inserts[n]))
  }

  /** The number of rows the loop skips. */
  function Skips<R>(cols: seq<string>, rows: seq<seq<Cell>>, build: (seq<string>, seq<Cell>) -> Result<R, string>, keep: R -> bool,
                    inserts: seq<Insert>): nat
    requires |inserts| == |rows|
    decreases |rows|
  {
    if rows == [] then 0
    else
      var n := |rows| - 1;
      Skips(cols, rows[..n], build, keep, inserts[..n]) + (if RowStep(cols, rows[n], build, keep, inserts[n]).Skipped? then 1 else 0)
  }

  lemma RunStep<R>(cols: seq<string>, rows: seq<seq<Cell>>, build: (seq<string>, seq<Cell>) -> Result<R, string>, keep: R -> bool,
                   inserts: seq<Insert>, k: nat)
    requires |inserts| == |rows| && k < |rows|
    ensures Run(cols, rows[..k + 1], build, keep, inserts[..k + 1])
            == Record(Run(cols, rows[..k], build, keep, inserts[..k]), k, RowStep(cols, rows[k], build, keep, inserts[k]))
  {
    assert rows[..k + 1][..k] == rows[..k];
    assert inserts[..k + 1][..k] == inserts[..k];
  }

  /** The loop itself, as the endpoints write it. */
  method ImportLoop<R>(cols: seq<string>, rows: seq<seq<Cell>>, build: (seq<string>, seq<Cell>) -> Result<R, string>, keep: R -> bool,
                       inserts: seq<Insert>) returns (stored: seq<R>, created: seq<string>, errors: seq<RowError>)
    requires |inserts| == |rows|
    ensures Import(stored, created, errors) == Run(cols, rows, build, keep, inserts)
  {
    stored, created, errors := [], [], [];
    for k := 0 to |rows|
      invariant Import(stored, created, errors) == Run(cols, rows[..k], build, keep, inserts[..k])
    {
      RunStep(cols, rows, build, keep, inserts, k);
      match build(cols, rows[k]) {
        case Err(e) =>
          errors := errors + [RowError(k + 2, e)];
        case Ok(rec) =>
          if keep(rec) {
            match inserts[k] {
              case Inserted(id) =>
                stored := stored + [rec];
                created := created + [id];
              case Raised(e) =>
                errors := errors + [RowError(k + 2, e)];
            }
          }
      }
    }
    assert rows[..|rows|] == rows && inserts[..|inserts|] == inserts;
  }

  /**
   * Every row is skipped, created or an error: `criados + erros` is the
   * number of rows less the skipped ones, and one record is stored per id.
   */
  lemma {:induction false} RunCounts<R>(cols: seq<string>, rows: seq<seq<Cell>>, build: (seq<string>, seq<Cell>) -> Result<R, string>, keep: R -> bool,
                                        inserts: seq<Insert>)
    requires |inserts| == |rows|
    ensures var r := Run(cols, rows, build, keep, inserts);
      |r.stored| == |r.created| && |r.created| + |r.errors| + Skips(cols, rows, build, keep, inserts) == |rows|
    decreases |rows|
  {
    if rows != [] {
      var n := |rows| - 1;
      RunCounts(cols, rows[..n], build, keep, inserts[..n]);
    }
  }

  /** A loop that skips nothing accounts for every row in `criados` or `erros`. */
  lemma {:induction false} NoSkipsCountsAll<R>(cols: seq<string>, rows: seq<seq<Cell>>, build: (seq<string>, seq<Cell>) -> Result<R, string>, keep: R -> bool,
                                               inserts: seq<Insert>)
    requires |inserts| == |rows|
    requires forall k :: 0 <= k < |rows| ==> !RowStep(cols, rows[k], build, keep, inserts[k]).Skipped?
    ensures Skips(cols, rows, build, keep, inserts) == 0
    decreases |rows|
  {
    if rows != [] {
      var n := |rows| - 1;
      NoSkipsCountsAll(cols, rows[..n], build, keep, inserts[..n]);
    }
  }

  /** The error entry names a failing row by its line and carries that row's message. */
  predicate ErrorAt<R>(e: RowError, cols: seq<string>, rows: seq<seq<Cell>>, build: (seq<string>, seq<Cell>) -> Result<R, string>,
                       keep: R -> bool, inserts: seq<Insert>)
    requires |inserts| == |rows|
  {
    2 <= e.linha < |rows| + 2
    && Failed(e.erro) == RowStep(cols, rows[e.linha - 2], build, keep, inserts[e.linha - 2])
  }

  predicate ErrorsFromRows<R>(errors: seq<RowError>, cols: seq<string>, rows: seq<seq<Cell>>, build: (seq<string>, seq<Cell>) -> Result<R, string>,
                              keep: R -> bool, inserts: seq<Insert>)
    requires |inserts| == |rows|
  {
    forall i :: 0 <= i < |errors| ==> ErrorAt(errors[i], cols, rows, build, keep, inserts)
  }

  /** Error lines strictly increase: the entries are in row order, one per row. */
  predicate LinesIncrease(errors: seq<RowError>) {
    forall i, j :: 0 <= i < j < |errors| ==> errors[i].linha < errors[j].linha
  }

  predicate LinesBelow(errors: seq<RowError>, bound: int) {
    forall i :: 0 <= i < |errors| ==> errors[i].linha < bound
  }

  lemma ErrorAtPrefix<R>(e: RowError, cols: seq<string>, rows: seq<seq<Cell>>, build: (seq<string>, seq<Cell>) -> Result<R, string>,
                         keep: R -> bool, inserts: seq<Insert>, n: nat)
    requires |inserts| == |rows| && n <= |rows|
    requires ErrorAt(e, cols, rows[..n], build, keep, inserts[..n])
    ensures ErrorAt(e, cols, rows, build, keep, inserts)
  {
    assert rows[..n][e.linha - 2] == rows[e.linha - 2];
    assert inserts[..n][e.linha - 2] == inserts[e.linha - 2];
  }

  /** Each error names a failing row by its line, in increasing line order, with that row's message. */
  lemma {:induction false} RunErrors<R>(cols: seq<string>, rows: seq<seq<Cell>>, build: (seq<string>, seq<Cell>) -> Result<R, string>, keep: R -> bool,
                                        inserts: seq<Insert>)
    requires |inserts| == |rows|
    ensures var errors := Run(cols, rows, build, keep, inserts).errors;
      ErrorsFromRows(errors, cols, rows, build, keep, inserts) && LinesIncrease(errors) && LinesBelow(errors, |rows| + 2)
    decreases |rows|
  {
    if rows != [] {
      var n := |rows| - 1;
      RunErrors(cols, rows[..n], build, keep, inserts[..n]);
      var before := Run(cols, rows[..n], build, keep, inserts[..n]).errors;
      var errors := Run(cols, rows, build, keep, inserts).errors;
      forall i | 0 <= i < |before|
        ensures ErrorAt(before[i], cols, rows, build, keep, inserts)
      {
        ErrorAtPrefix(before[i], cols, rows, build, keep, inserts, n);
      }
      if errors != before {
        assert errors == before + [RowError(n + 2, RowStep(cols, rows[n], build, keep, inserts[n]).erro)];
      }
    }
  }

  /** Every failing row has its error entry. */
  lemma {:induction false} RunErrorComplete<R>(cols: seq<string>, rows: seq<seq<Cell>>, build: (seq<string>, seq<Cell>) -> Result<R, string>, keep: R -> bool,
                                               inserts: seq<Insert>, k: nat)
    requires |inserts| == |rows| && k < |rows|
    requires RowStep(cols, rows[k], build, keep, inserts[k]).Failed?
    ensures RowError(k + 2, RowStep(cols, rows[k], build, keep, inserts[k]).erro) in Run(cols, rows, build, keep, inserts).errors
    decreases |rows|
  {
    var n := |rows| - 1;
    if k < n {
      RunErrorComplete(cols, rows[..n], build, keep, inserts[..n], k);
    }
  }

  /** Each stored record and id come from one row whose record was kept and inserted under that id. */
  predicate CreatedSound<R(==)>(r: Import<R>, cols: seq<string>, rows: seq<seq<Cell>>, build: (seq<string>, seq<Cell>) -> Result<R, string>,
                            keep: R -> bool, inserts: seq<Insert>)
    requires |inserts| == |rows|
  {
    |r.stored| == |r.created|
    && forall i :: 0 <= i < |r.created| ==>
         exists k :: 0 <= k < |rows| && RowStep(cols, rows[k], build, keep, inserts[k]) == Created(r.stored[i], r.created[i])
  }

  lemma {:induction false} RunCreated<R>(cols: seq<string>, rows: seq<seq<Cell>>, build: (seq<string>, seq<Cell>) -> Result<R, string>, keep: R -> bool,
                                         inserts: seq<Insert>)
    requires |inserts| == |rows|
    ensures CreatedSound(Run(cols, rows, build, keep, inserts), cols, rows, build, keep, inserts)
    decreases |rows|
  {
    if rows != [] {
      var n := |rows| - 1;
      RunCreated(cols, rows[..n], build, keep, inserts[..n]);
      var before := Run(cols, rows[..n], build, keep, inserts[..n]);
      var r := Run(cols, rows, build, keep, inserts);
      assert CreatedSound(before, cols, rows[..n], build, keep, inserts[..n]);
      forall i | 0 <= i < |r.created|
        ensures exists k :: 0 <= k < |rows| && RowStep(cols, rows[k], build, keep, inserts[k]) == Created(r.stored[i], r.created[i])
      {
        if i < |before.created| {
          var k :| 0 <= k < n && RowStep(cols, rows[..n][k], build, keep, inserts[..n][k]) == Created(before.stored[i], before.created[i]);
          assert rows[..n][k] == rows[k] && inserts[..n][k] == inserts[k];
        } else {
          assert RowStep(cols, rows[n], build, keep, inserts[n]) == Created(r.stored[i], r.created[i]);
        }
      }
    }
  }

  /** Every row that was kept and inserted has its record and id in the lists. */
  lemma {:induction false} RunCreatedComplete<R>(cols: seq<string>, rows: seq<seq<Cell>>, build: (seq<string>, seq<Cell>) -> Result<R, string>, keep: R -> bool,
                                                 inserts: seq<Insert>, k: nat)
    requires |inserts| == |rows| && k < |rows|
    requires RowStep(cols, rows[k], build, keep, inserts[k]).Created?
    ensures var r := Run(cols, rows, build, keep, inserts);
      var s := RowStep(cols, rows[k], build, keep, inserts[k]);
      s.rec in r.stored && s.id in r.created
    decreases |rows|
  {
    var n := |rows| - 1;
    if k < n {
      RunCreatedComplete(cols, rows[..n], build, keep, inserts[..n], k);
    }
  }
}
