/**
 * The spreadsheet endpoints of the HR backend: the client address for the
 * audit log, column-name normalization and mapping, the required-column
 * check, value cleaning, the three import endpoints (attendance, meals,
 * materials) and the three date-filtered exports.
 */
module ExcelRouter {
  import opened Wrappers
  import opened Text
  import opened Lists
  import opened Sheets
  import opened ImportRows
  import Frequencias
  import Logs

  // ---------------------------------------------------------------------------
  // Client address
  // ---------------------------------------------------------------------------

  /**
   * `get_client_ip`: the text before the first comma of `X-Forwarded-For`
   * when that header is present and non-empty, otherwise the peer's host,
   * otherwise "unknown".
   */
  function GetClientIp(forwarded: Option<string>, clientHost: Option<string>): (r: string)
    ensures Truthy(forwarded) ==>
      ',' !in r && |r| <= |forwarded.value| && r == forwarded.value[..|r|] && (|r| < |forwarded.value| ==> forwarded.value[|r|] == ',')
    ensures !Truthy(forwarded) && clientHost.Some? ==> r == clientHost.value
    ensures !Truthy(forwarded) && clientHost.None? ==> r == "unknown"
  {
    if Truthy(forwarded) then BeforeFirst(forwarded.value, ',') else clientHost.GetOr("unknown")
  }

  /** With a proxy chain `a, b, ...` the address is the first hop `a`, as written (not trimmed). */
  lemma ClientIpIsFirstHop(a: string, rest: string, clientHost: Option<string>)
    requires ',' !in a
    ensures GetClientIp(Some(a + "," + rest), clientHost) == a
  {
    var s := a + "," + rest;
    assert s[|a|] == ',';
    assert forall k :: 0 <= k < |a| ==> s[k] == a[k];
    assert |GetClientIp(Some(s), clientHost)| == |a|;
    assert s[..|a|] == a;
  }

  // ---------------------------------------------------------------------------
  // Column names
  // ---------------------------------------------------------------------------

  /** What `unicodedata.combining` reports as combining: the combining diacritical marks, less the grapheme joiner. */
  predicate IsCombining(c: char) {
    0x300 <= c as int <= 0x36F && c as int != 0x34F
  }

  /** The Latin-1 letters whose NFKD form is an ASCII letter followed by combining marks. */
  predicate IsAccentedLatin1(c: char) {
    var n := c as int;
    (0xC0 <= n <= 0xC5) || (0xC7 <= n <= 0xCF) || (0xD1 <= n <= 0xD6) || (0xD9 <= n <= 0xDD)
    || (0xE0 <= n <= 0xE5) || (0xE7 <= n <= 0xEF) || (0xF1 <= n <= 0xF6) || (0xF9 <= n <= 0xFD) || n == 0xFF
  }

  /** A character that carries no accent: neither an accented Latin-1 letter nor a combining mark. */
  predicate Unaccented(c: char) {
    !IsAccentedLatin1(c) && !IsCombining(c)
  }

  /**
   * The first character of the NFKD form of a Latin-1 character: the base
   * letter of an accented letter, a space for the no-break space, the
   * character itself otherwise (the other compatibility decompositions of
   * Latin-1, such as those of ª, ² or ½, are not modelled).
   */
  function BaseChar(c: char): (r: char)
    ensures IsAccentedLatin1(c) ==> 'A' <= r <= 'Z' || 'a' <= r <= 'z'
    ensures c == '\U{A0}' ==> r == ' '
    ensures !IsAccentedLatin1(c) && c != '\U{A0}' ==> r == c
    ensures !IsAccentedLatin1(r)
  {
    var n := c as int;
    if 0xC0 <= n <= 0xC5 then 'A' else if n == 0xC7 then 'C' else if 0xC8 <= n <= 0xCB then 'E'
    else if 0xCC <= n <= 0xCF then 'I' else if n == 0xD1 then 'N' else if 0xD2 <= n <= 0xD6 then 'O'
    else if 0xD9 <= n <= 0xDC then 'U' else if n == 0xDD then 'Y'
    else if 0xE0 <= n <= 0xE5 then 'a' else if n == 0xE7 then 'c' else if 0xE8 <= n <= 0xEB then 'e'
    else if 0xEC <= n <= 0xEF then 'i' else if n == 0xF1 then 'n' else if 0xF2 <= n <= 0xF6 then 'o'
    else if 0xF9 <= n <= 0xFC then 'u' else if n == 0xFD || n == 0xFF then 'y'
    else if n == 0xA0 then ' '
    else c
  }

  /** NFKD followed by dropping the combining characters: no accent is left, in either form. */
  function Unaccent(s: string): (r: string)
    ensures |r| <= |s|
    ensures forall k :: 0 <= k < |r| ==> Unaccented(r[k])
  {
    if s == [] then [] else (if IsCombining(s[0]) then [] else [BaseChar(s[0])]) + Unaccent(s[1..])
  }

  /**
   * `normalize_column_name`: accents removed, surrounding whitespace
   * stripped, lower-cased, spaces turned into underscores.
   */
  function NormalizeColumnName(col: string): string {
    ReplaceChar(Lower(Strip(Unaccent(col))), ' ', '_')
  }

  /**
   * A normalized name has no space, no upper-case ASCII letter, no accented
   * Latin-1 letter and no combining mark.
   */
  lemma NormalizedColumnShape(col: string)
    ensures var r := NormalizeColumnName(col);
      ' ' !in r && forall k :: 0 <= k < |r| ==> !('A' <= r[k] <= 'Z') && Unaccented(r[k])
  {
    var u := Unaccent(col);
    var t := Strip(u);
    var i :| TrimmedAt(u, t, i, IsPySpace);
    forall k | 0 <= k < |t|
      ensures Unaccented(t[k])
    {
      assert t[k] == u[i + k];
    }
    var s := Lower(t);
    forall k | 0 <= k < |s|
      ensures !('A' <= s[k] <= 'Z') && Unaccented(s[k])
    {
      LowerCharUnaccented(t[k]);
    }
  }

  /** Lower-casing a character without accent gives one without accent, and never an upper-case ASCII letter. */
  lemma LowerCharUnaccented(c: char)
    requires Unaccented(c)
    ensures !('A' <= LowerChar(c) <= 'Z') && Unaccented(LowerChar(c))
  {
  }

  /**
   * The column mapping below is stated for any normalization `norm`;
   * `map_columns` uses `NormalizeColumnName`. The labels under `norm`,
   * computed once per frame:
   */
  function Normalized(norm: string -> string, cols: seq<string>): (r: seq<string>)
    ensures |r| == |cols|
    ensures forall j :: 0 <= j < |cols| ==> r[j] == norm(cols[j])
  {
    seq(|cols|, j requires 0 <= j < |cols| => norm(cols[j]))
  }

  /** An accepted spelling of a standard column: its name and the variations that map to it. */
  datatype Standard = Standard(name: string, variations: seq<string>)

  /**
   * The inner loop of `map_columns` from column j on, with its `break`: the
   * first column whose normalized name (in `ns`) is `nv`, or -1.
   */
  function FirstWithNorm(ns: seq<string>, nv: string, j: nat): (r: int)
    requires j <= |ns|
    ensures r == -1 || j <= r < |ns|
    ensures r >= 0 ==> ns[r] == nv
    ensures forall i :: j <= i < |ns| && (r < 0 || i < r) ==> ns[i] != nv
    decreases |ns| - j
  {
    if j == |ns| then -1
    else if ns[j] == nv then j
    else FirstWithNorm(ns, nv, j + 1)
  }

  /** The column the variation `v` picks (the first whose normalized name is v's) is `c`. */
  predicate Picks(norm: string -> string, cols: seq<string>, v: string, c: string) {
    var j := FirstWithNorm(Normalized(norm, cols), norm(v), 0);
    j >= 0 && cols[j] == c
  }

  /** `rename_map` after one variation: the column it picks is renamed to the standard. */
  function WithVariation(norm: string -> string, rm: map<string, string>, cols: seq<string>, name: string, v: string): map<string, string> {
    var j := FirstWithNorm(Normalized(norm, cols), norm(v), 0);
    if j >= 0 then rm[cols[j] := name] else rm
  }

  function WithVariations(norm: string -> string, rm: map<string, string>, cols: seq<string>, name: string, vs: seq<string>): map<string, string>
    decreases |vs|
  {
    if vs == [] then rm
    else WithVariation(norm, WithVariations(norm, rm, cols, name, vs[..|vs| - 1]), cols, name, vs[|vs| - 1])
  }

  /** `rename_map` after the standards in order; a later standard overwrites an earlier one's entry. */
  function RenameMap(norm: string -> string, cols: seq<string>, mapping: seq<Standard>): map<string, string>
    decreases |mapping|
  {
    if mapping == [] then map[]
    else
      var n := |mapping| - 1;
      WithVariations(norm, RenameMap(norm, cols, mapping[..n]), cols, mapping[n].name, mapping[n].variations)
  }

  /** `df.rename(columns=rename_map)` on the labels. */
  function Renamed(cols: seq<string>, rm: map<string, string>): (r: seq<string>)
    ensures |r| == |cols|
  {
    seq(|cols|, j requires 0 <= j < |cols| => if cols[j] in rm then rm[cols[j]] else cols[j])
  }

  /** Some variation of the list picks column `c`. */
  function AnyPicks(norm: string -> string, cols: seq<string>, vs: seq<string>, c: string): (r: bool)
    ensures r <==> exists k :: 0 <= k < |vs| && Picks(norm, cols, vs[k], c)
    decreases |vs|
  {
    if vs == [] then false
    else
      var n := |vs| - 1;
      var r := Picks(norm, cols, vs[n], c) || AnyPicks(norm, cols, vs[..n], c);
      assert forall k :: 0 <= k < n ==> vs[..n][k] == vs[k];
      r
  }

  /** The last standard one of whose variations picks column `c`, or -1: the one that names it. */
  function LastClaimer(norm: string -> string, cols: seq<string>, mapping: seq<Standard>, c: string): (r: int)
    ensures -1 <= r < |mapping|
    ensures r >= 0 ==> AnyPicks(norm, cols, mapping[r].variations, c)
    ensures forall i :: r < i < |mapping| ==> !AnyPicks(norm, cols, mapping[i].variations, c)
    decreases |mapping|
  {
    if mapping == [] then -1
    else
      var n := |mapping| - 1;
      if AnyPicks(norm, cols, mapping[n].variations, c) then n
      else
        var r := LastClaimer(norm, cols, mapping[..n], c);
        assert forall i :: 0 <= i < n ==> mapping[..n][i] == mapping[i];
        r
  }

  lemma {:induction false} WithVariationsSpec(norm: string -> string, rm: map<string, string>, cols: seq<string>, name: string, vs: seq<string>, c: string)
    ensures var out := WithVariations(norm, rm, cols, name, vs);
      (c in out <==> c in rm || AnyPicks(norm, cols, vs, c))
      && (AnyPicks(norm, cols, vs, c) ==> out[c] == name)
      && (!AnyPicks(norm, cols, vs, c) && c in rm ==> out[c] == rm[c])
    decreases |vs|
  {
    if vs != [] {
      WithVariationsSpec(norm, rm, cols, name, vs[..|vs| - 1], c);
    }
  }

  /** A column is renamed exactly when some standard claims it, and then to the last claimer's name. */
  lemma {:induction false} RenameMapSpec(norm: string -> string, cols: seq<string>, mapping: seq<Standard>, c: string)
    ensures var rm := RenameMap(norm, cols, mapping);
      var i := LastClaimer(norm, cols, mapping, c);
      (c in rm <==> i >= 0) && (i >= 0 ==> rm[c] == mapping[i].name)
    decreases |mapping|
  {
    if mapping != [] {
      var n := |mapping| - 1;
      RenameMapSpec(norm, cols, mapping[..n], c);
      WithVariationsSpec(norm, RenameMap(norm, cols, mapping[..n]), cols, mapping[n].name, mapping[n].variations, c);
    }
  }

  /**
   * `map_columns`: the normalized labels, then `rename_map` built by the
   * three nested loops (standards, their variations, the columns up to the
   * first match), then the renamed labels.
   */
  method MapColumns(cols: seq<string>, mapping: seq<Standard>) returns (renamed: seq<string>)
    ensures renamed == Renamed(cols, RenameMap(NormalizeColumnName, cols, mapping))
  {
    var rm := BuildRenameMap(NormalizeColumnName, cols, mapping);
    renamed := seq(|cols|, j requires 0 <= j < |cols| => if cols[j] in rm then rm[cols[j]] else cols[j]);
  }

  /** The three nested loops that build `rename_map`. */
  method BuildRenameMap(norm: string -> string, cols: seq<string>, mapping: seq<Standard>) returns (rm: map<string, string>)
    ensures rm == RenameMap(norm, cols, mapping)
  {
    var normalized := Normalized(norm, cols);
    rm := map[];
    for i := 0 to |mapping|
      invariant rm == RenameMap(norm, cols, mapping[..i])
    {
      var std := mapping[i];
      assert mapping[..i + 1][..i] == mapping[..i];
      for k := 0 to |std.variations|
        invariant rm == WithVariations(norm, RenameMap(norm, cols, mapping[..i]), cols, std.name, std.variations[..k])
      {
        ghost var before := rm;
        var nv := norm(std.variations[k]);
        var j := 0;
        while j < |cols|
          invariant 0 <= j <= |cols| && rm == before
          invariant forall i' :: 0 <= i' < j ==> normalized[i'] != nv
        {
          if normalized[j] == nv {
            rm := rm[cols[j] := std.name];
            break;
          }
          j := j + 1;
        }
        assert std.variations[..k + 1][..k] == std.variations[..k];
        ghost var first := FirstWithNorm(normalized, nv, 0);
        assert first >= 0 ==> rm == before[cols[first] := std.name];
        assert first < 0 ==> rm == before;
      }
      assert std.variations[..|std.variations|] == std.variations;
    }
    assert mapping[..|mapping|] == mapping;
  }

  /** A column keeps its label unless some standard claims it; a claimed one takes the last claimer's name. */
  lemma MapColumnsRenames(norm: string -> string, cols: seq<string>, mapping: seq<Standard>, j: nat)
    requires j < |cols|
    ensures var out := Renamed(cols, RenameMap(norm, cols, mapping));
      var i := LastClaimer(norm, cols, mapping, cols[j]);
      (i < 0 ==> out[j] == cols[j]) && (i >= 0 ==> out[j] == mapping[i].name)
  {
    RenameMapSpec(norm, cols, mapping, cols[j]);
  }

  /** A column whose normalized label equals no normalized variation keeps its label. */
  lemma UnmatchedKeepsName(norm: string -> string, cols: seq<string>, mapping: seq<Standard>, j: nat)
    requires j < |cols|
    requires forall i, k :: 0 <= i < |mapping| && 0 <= k < |mapping[i].variations| ==>
               norm(mapping[i].variations[k]) != norm(cols[j])
    ensures Renamed(cols, RenameMap(norm, cols, mapping))[j] == cols[j]
  {
    MapColumnsRenames(norm, cols, mapping, j);
    var i := LastClaimer(norm, cols, mapping, cols[j]);
    if i >= 0 {
      assert false;
    }
  }

  /** A column that is renamed takes a standard name one of whose variations normalizes as its label does. */
  lemma RenamedOnlyOnMatch(norm: string -> string, cols: seq<string>, mapping: seq<Standard>, j: nat)
    requires j < |cols|
    requires Renamed(cols, RenameMap(norm, cols, mapping))[j] != cols[j]
    ensures exists i, k :: 0 <= i < |mapping| && 0 <= k < |mapping[i].variations|
              && Renamed(cols, RenameMap(norm, cols, mapping))[j] == mapping[i].name
              && norm(mapping[i].variations[k]) == norm(cols[j])
  {
    MapColumnsRenames(norm, cols, mapping, j);
    var i := LastClaimer(norm, cols, mapping, cols[j]);
    var vs := mapping[i].variations;
    var k :| 0 <= k < |vs| && Picks(norm, cols, vs[k], cols[j]);
    assert norm(vs[k]) == norm(cols[j]);
  }

  // ---------------------------------------------------------------------------
  // Required columns
  // ---------------------------------------------------------------------------

  /** `[col for col in required_cols if col not in df.columns]`. */
  function MissingColumns(cols: seq<string>, required: seq<string>): (r: seq<string>)
    ensures forall x :: x in r <==> x in required && x !in cols
    ensures |r| <= |required|
    ensures r == [] <==> forall k :: 0 <= k < |required| ==> required[k] in cols
  {
    var r := Filter(required, c => c !in cols);
    assert (forall k :: 0 <= k < |required| ==> required[k] in cols) ==> r == [] by {
      if forall k :: 0 <= k < |required| ==> required[k] in cols {
        FilterKeepsAllOut(required, c => c !in cols);
      }
    }
    forall x | x in required && x !in cols
      ensures x in r
    {
      var k :| 0 <= k < |required| && required[k] == x;
      FilterKeeps(required, c => c !in cols, k);
    }
    r
  }

  function MissingDetail(missing: seq<string>): string {
    "Colunas obrigatórias ausentes: " + Join(missing, ", ")
  }

  /**
   * `validate_required_columns`: a 400 exactly when a required column is
   * absent, naming every absent one in the order they are required.
   */
  function ValidateRequiredColumns(cols: seq<string>, required: seq<string>): (r: Result<(), HttpError>)
    ensures r.Ok? <==> forall k :: 0 <= k < |required| ==> required[k] in cols
    ensures r.Err? ==> r.error == HttpError(400, MissingDetail(MissingColumns(cols, required)))
  {
    var missing := MissingColumns(cols, required);
    if missing != [] then Err(HttpError(400, MissingDetail(missing)))
    else
      assert forall k :: 0 <= k < |required| ==> required[k] !in missing;
      Ok(())
  }

  // ---------------------------------------------------------------------------
  // Cleaning values
  // ---------------------------------------------------------------------------

  /** `clean_and_format_value(value, "string")`: "" for an empty value, else its text stripped. */
  function CleanString(c: Cell): (r: string)
    ensures IsEmptyValue(c) ==> r == ""
    ensures !IsEmptyValue(c) ==> r == Strip(AsText(c))
  {
    if IsEmptyValue(c) then "" else Strip(AsText(c))
  }

  /** A text cell with no whitespace at either end cleans to its own text. */
  lemma CleanUnpadded(s: string)
    requires s != [] && !IsPySpace(s[0]) && !IsPySpace(s[|s| - 1])
    ensures CleanString(Str(s)) == s
  {
    StripUnpadded(s);
  }

  /** A cleaned string is empty exactly for an empty value or text that is all whitespace. */
  lemma CleanStringEmpty(c: Cell)
    ensures CleanString(c) == "" <==> IsEmptyValue(c) || forall k :: 0 <= k < |AsText(c)| ==> IsPySpace(AsText(c)[k])
  {
  }

  predicate NotPySpace(c: char) {
    !IsPySpace(c)
  }

  /** w is the first whitespace-separated word of s, starting at i. */
  predicate FirstWordAt(s: string, w: string, i: int) {
    0 <= i && i + |w| <= |s| && w == s[i..i + |w|] && w != []
    && (forall k :: 0 <= k < i ==> IsPySpace(s[k]))
    && (forall k :: 0 <= k < |w| ==> !IsPySpace(w[k]))
    && (i + |w| < |s| ==> IsPySpace(s[i + |w|]))
  }

  /**
   * `str(value).split()[0]` inside its `try`: the first word, or the text
   * itself when it has none (the `IndexError` is caught and `str(value)`
   * returned).
   */
  function FirstWordOr(s: string): (r: string)
    ensures (forall k :: 0 <= k < |s| ==> IsPySpace(s[k])) ==> r == s
    ensures (exists k :: 0 <= k < |s| && !IsPySpace(s[k])) ==> exists i :: FirstWordAt(s, r, i)
  {
    var i := SkipFrom(s, IsPySpace, 0);
    if i == |s| then s
    else
      var j := SkipFrom(s, NotPySpace, i);
      assert FirstWordAt(s, s[i..j], i);
      s[i..j]
  }

  /**
   * `clean_and_format_value(value, "date")`: None for an empty value, the
   * `%Y-%m-%d` date of a timestamp, otherwise the first word of the text
   * (or the whole text when it is only whitespace).
   */
  function CleanDate(c: Cell): (r: Option<string>)
    ensures r.None? <==> IsEmptyValue(c)
    ensures c.Stamp? ==> r == Some(c.date)
    ensures !IsEmptyValue(c) && !c.Stamp? ==> r == Some(FirstWordOr(AsText(c)))
  {
    if IsEmptyValue(c) then None
    else if c.Stamp? then Some(c.date)
    else Some(FirstWordOr(AsText(c)))
  }

  /** A time kept from the text of a timestamp cell is dropped: only the date's first word stays. */
  lemma CleanDateDropsTime(d: string, t: string)
    requires d != [] && forall k :: 0 <= k < |d| ==> !IsPySpace(d[k])
    ensures CleanDate(Str(d + " " + t)) == Some(d)
  {
    var s := d + " " + t;
    var w := FirstWordOr(s);
    assert !IsPySpace(s[0]);
    var i :| FirstWordAt(s, w, i);
    assert i == 0;
    assert forall k :: 0 <= k < |d| ==> s[k] == d[k];
    assert IsPySpace(s[|d|]);
    assert |w| == |d|;
    assert s[..|d|] == d;
  }

  // ---------------------------------------------------------------------------
  // Attendance import
  // ---------------------------------------------------------------------------

  /**
   * `(saida - entrada).seconds / 3600`, in minutes: `timedelta.seconds` is
   * the difference taken modulo a day, so a clock-out before the clock-in
   * wraps past midnight; a time that does not parse gives 0.
   */
  function HorasTrabalhadas(entrada: string, saida: string): (r: int)
    ensures 0 <= r < 1440
    ensures Frequencias.ParseClock(entrada).None? || Frequencias.ParseClock(saida).None? ==> r == 0
    ensures match (Frequencias.ParseClock(entrada), Frequencias.ParseClock(saida))
      case (Some(e), Some(s)) => (e <= s ==> r == s as int - e as int) && (s < e ==> r == s as int - e as int + 1440)
      case _ => true
  {
    match (Frequencias.ParseClock(entrada), Frequencias.ParseClock(saida))
    case (Some(e), Some(s)) => (s as int - e as int) % 1440
    case _ => 0
  }

  /** Where the attendance service reports a negative time, the import wraps it into the day. */
  lemma ImportWrapsServiceTime(entrada: string, saida: string)
    requires Frequencias.CalcularHoras(Some(entrada), Some(saida)).Some?
    ensures var v := Frequencias.CalcularHoras(Some(entrada), Some(saida)).value;
      HorasTrabalhadas(entrada, saida) == (if v >= 0 then v else v + 1440)
  {
  }

  /** The attendance document an import row becomes (its `_id` aside). */
  datatype FrequenciaImportada = FrequenciaImportada(
    funcionarioId: string,
    data: Option<string>,
    horaEntrada: string,
    horaSaida: string,
    tipoDia: string,
    observacao: string,
    importadoEm: string,
    horasTrabalhadas: Option<int>)

  /**
   * The `registro` built from one row; `horas_trabalhadas` is present only
   * when both times are non-empty, and an absent `tipo_dia` column gives "util".
   */
  function BuildFrequencia(cols: seq<string>, row: seq<Cell>, agora: string): (r: FrequenciaImportada)
    ensures r.horasTrabalhadas.Some? <==> r.horaEntrada != "" && r.horaSaida != ""
    ensures r.horasTrabalhadas.Some? ==> 0 <= r.horasTrabalhadas.value < 1440
    ensures "tipo_dia" !in cols ==> r.tipoDia == "util"
    ensures "hora_entrada" !in cols ==> r.horaEntrada == "" && r.horasTrabalhadas.None?
    ensures r.importadoEm == agora
  {
    CleanUnpadded("util");
    var entrada := CleanString(Get(cols, row, "hora_entrada", Str("")));
    var saida := CleanString(Get(cols, row, "hora_saida", Str("")));
    FrequenciaImportada(
      CleanString(Get(cols, row, "funcionario_id", Blank)),
      CleanDate(Get(cols, row, "data", Blank)),
      entrada,
      saida,
      CleanString(Get(cols, row, "tipo_dia", Str("util"))),
      CleanString(Get(cols, row, "observacao", Str(""))),
      agora,
      if entrada != "" && saida != "" then Some(HorasTrabalhadas(entrada, saida)) else None)
  }

  /** Building an attendance record never raises. */
  function FrequenciaBuilder(agora: string): (seq<string>, seq<Cell>) -> Result<FrequenciaImportada, string> {
    (cols, row) => Ok(BuildFrequencia(cols, row, agora))
  }

  /** Rows with an empty employee id or date are skipped. */
  predicate KeepFrequencia(r: FrequenciaImportada) {
    r.funcionarioId != "" && Truthy(r.data)
  }

  /** A date cell holding only whitespace is not empty to the skip rule: its text is kept as the date. */
  lemma WhitespaceDateIsKept(cols: seq<string>, row: seq<Cell>, agora: string, ws: string)
    requires ws != [] && forall k :: 0 <= k < |ws| ==> IsPySpace(ws[k])
    requires Get(cols, row, "data", Blank) == Str(ws)
    requires CleanString(Get(cols, row, "funcionario_id", Blank)) != ""
    ensures KeepFrequencia(BuildFrequencia(cols, row, agora))
    ensures BuildFrequencia(cols, row, agora).data == Some(ws)
  {
  }

  const FrequenciaMapping: seq<Standard> := [
    Standard("funcionario_id", ["funcionario_id", "funcionarioid", "id_funcionario", "funcionario", "id"]),
    Standard("data", ["data", "date", "dia"]),
    Standard("hora_entrada", ["hora_entrada", "horaentrada", "entrada", "checkin"]),
    Standard("hora_saida", ["hora_saida", "horasaida", "saida", "checkout"]),
    Standard("tipo_dia", ["tipo_dia", "tipodia", "tipo"]),
    Standard("observacao", ["observacao", "observacoes", "obs", "notas"])
  ]

  const FrequenciaRequired: seq<string> := ["funcionario_id", "data"]

  // ---------------------------------------------------------------------------
  // Meals and materials imports
  // ---------------------------------------------------------------------------

  /**
   * Python's message for `a * b` when a cleaned number is None (an empty
   * cell), with the operand types in order; None when both are numbers.
   */
  function ProductTypeError(leftNone: bool, leftType: string, rightNone: bool, rightType: string): (r: Option<string>)
    ensures r.None? <==> !leftNone && !rightNone
  {
    if !leftNone && !rightNone then None
    else Some("unsupported operand type(s) for *: '" + (if leftNone then "NoneType" else leftType)
              + "' and '" + (if rightNone then "NoneType" else rightType) + "'")
  }

  /** The meal document an import row becomes, its amounts aside. */
  datatype AlimentacaoImportada = AlimentacaoImportada(
    funcionarioId: string,
    nome: string,
    data: Option<string>,
    tipoRefeicao: string,
    fornecedor: string,
    importadoEm: string)

  /**
   * The meal `registro`: an empty unit price or quantity cell cleans to None
   * and `round(valor_unitario * quantidade, 2)` raises.
   */
  function BuildAlimentacao(cols: seq<string>, row: seq<Cell>, agora: string): (r: Result<AlimentacaoImportada, string>)
    ensures r.Err? <==> IsEmptyValue(Get(cols, row, "valor_unitario", Num("0")))
                        || IsEmptyValue(Get(cols, row, "quantidade", Num("1")))
  {
    var valorNone := IsEmptyValue(Get(cols, row, "valor_unitario", Num("0")));
    var quantidadeNone := IsEmptyValue(Get(cols, row, "quantidade", Num("1")));
    match ProductTypeError(valorNone, "float", quantidadeNone, "int")
    case Some(e) => Err(e)
    case None =>
      Ok(AlimentacaoImportada(
        CleanString(Get(cols, row, "funcionario_id", Blank)),
        CleanString(Get(cols, row, "nome", Str(""))),
        CleanDate(Get(cols, row, "data", Blank)),
        CleanString(Get(cols, row, "tipo_refeicao", Blank)),
        CleanString(Get(cols, row, "fornecedor", Str(""))),
        agora))
  }

  function AlimentacaoBuilder(agora: string): (seq<string>, seq<Cell>) -> Result<AlimentacaoImportada, string> {
    (cols, row) => BuildAlimentacao(cols, row, agora)
  }

  predicate KeepAlimentacao(r: AlimentacaoImportada) {
    r.funcionarioId != "" && Truthy(r.data)
  }

  const AlimentacaoMapping: seq<Standard> := [
    Standard("funcionario_id", ["funcionario_id", "funcionarioid", "id_funcionario", "id"]),
    Standard("nome", ["nome", "name", "funcionario_nome"]),
    Standard("data", ["data", "date", "dia"]),
    Standard("tipo_refeicao", ["tipo_refeicao", "tiporefeicao", "tipo", "refeicao"]),
    Standard("valor_unitario", ["valor_unitario", "valorunitario", "valor", "preco"]),
    Standard("quantidade", ["quantidade", "qtd", "qty"]),
    Standard("fornecedor", ["fornecedor", "supplier", "empresa"])
  ]

  const AlimentacaoRequired: seq<string> := ["funcionario_id", "data", "tipo_refeicao"]

  /** The material document an import row becomes, its amounts aside. */
  datatype MaterialImportado = MaterialImportado(
    data: Option<string>,
    descricao: string,
    localUso: string,
    categoria: string,
    autorizadoPor: string,
    importadoEm: string)

  /** The material `registro`: an empty quantity or unit price makes `round(quantidade * valor_unitario, 2)` raise. */
  function BuildMaterial(cols: seq<string>, row: seq<Cell>, agora: string): (r: Result<MaterialImportado, string>)
    ensures r.Err? <==> IsEmptyValue(Get(cols, row, "quantidade", Num("1")))
                        || IsEmptyValue(Get(cols, row, "valor_unitario", Num("0")))
  {
    var quantidadeNone := IsEmptyValue(Get(cols, row, "quantidade", Num("1")));
    var valorNone := IsEmptyValue(Get(cols, row, "valor_unitario", Num("0")));
    match ProductTypeError(quantidadeNone, "float", valorNone, "float")
    case Some(e) => Err(e)
    case None =>
      Ok(MaterialImportado(
        CleanDate(Get(cols, row, "data", Blank)),
        CleanString(Get(cols, row, "descricao", Blank)),
        CleanString(Get(cols, row, "local_uso", Blank)),
        CleanString(Get(cols, row, "categoria", Str(""))),
        CleanString(Get(cols, row, "autorizado_por", Str(""))),
        agora))
  }

  function MaterialBuilder(agora: string): (seq<string>, seq<Cell>) -> Result<MaterialImportado, string> {
    (cols, row) => BuildMaterial(cols, row, agora)
  }

  /** Rows with an empty date or description are skipped. */
  predicate KeepMaterial(r: MaterialImportado) {
    Truthy(r.data) && r.descricao != ""
  }

  const MateriaisMapping: seq<Standard> := [
    Standard("data", ["data", "date", "dia"]),
    Standard("descricao", ["descricao", "description", "material", "item"]),
    Standard("local_uso", ["local_uso", "localuso", "local", "obra"]),
    Standard("categoria", ["categoria", "category", "tipo"]),
    Standard("quantidade", ["quantidade", "qtd", "qty"]),
    Standard("valor_unitario", ["valor_unitario", "valorunitario", "valor", "preco"]),
    Standard("autorizado_por", ["autorizado_por", "autorizadopor", "responsavel", "autorizado"])
  ]

  const MateriaisRequired: seq<string> := ["data", "descricao", "local_uso"]

  // ---------------------------------------------------------------------------
  // The import pipeline
  // ---------------------------------------------------------------------------

  /**
   * How an import ends before its response is built: an `HTTPException` it
   * raises (and re-raises), a file that could not be read (the message of
   * the `ValueError`), or the row loop's lists over `total` rows.
   */
  datatype Outcome<R> = Refused(error: HttpError) | Unreadable(message: string) | Imported(total: nat, run: Import<R>)

  /** The mapped frame: the required-column check, then the row loop over the renamed columns. */
  function ProcessFrame<R>(f: Frame, mapping: seq<Standard>, required: seq<string>,
                           build: (seq<string>, seq<Cell>) -> Result<R, string>, keep: R -> bool,
                           inserts: seq<Insert>): Outcome<R>
    requires |inserts| == |f.rows|
  {
    var cols := Renamed(f.columns, RenameMap(NormalizeColumnName, f.columns, mapping));
    match ValidateRequiredColumns(cols, required)
    case Err(e) => Refused(e)
    case Ok(_) => Imported(|f.rows|, Run(cols, f.rows, build, keep, inserts))
  }

  /**
   * An imported frame has all its required columns, and the created and
   * failed rows are at most all of them, each failure at its row's line.
   */
  lemma ProcessFrameCounts<R>(f: Frame, mapping: seq<Standard>, required: seq<string>,
                              build: (seq<string>, seq<Cell>) -> Result<R, string>, keep: R -> bool,
                              inserts: seq<Insert>)
    requires |inserts| == |f.rows|
    ensures var o := ProcessFrame(f, mapping, required, build, keep, inserts);
      var cols := Renamed(f.columns, RenameMap(NormalizeColumnName, f.columns, mapping));
      (o.Imported? <==> forall k :: 0 <= k < |required| ==> required[k] in cols)
      && (o.Refused? ==> o.error.status == 400)
      && (o.Imported? ==> o.total == |f.rows| && |o.run.created| + |o.run.errors| <= o.total
                          && ErrorsFromRows(o.run.errors, cols, f.rows, build, keep, inserts))
  {
    var cols := Renamed(f.columns, RenameMap(NormalizeColumnName, f.columns, mapping));
    RunCounts(cols, f.rows, build, keep, inserts);
    RunErrors(cols, f.rows, build, keep, inserts);
  }

  /** An upload: the extension check, then the file as read (or the reason it could not be), then the frame. */
  function SheetOutcome<R>(filename: string, frame: Result<Frame, string>, mapping: seq<Standard>, required: seq<string>,
                           build: (seq<string>, seq<Cell>) -> Result<R, string>, keep: R -> bool, inserts: seq<Insert>)
    : Outcome<R>
    requires frame.Ok? ==> |inserts| == |frame.value.rows|
  {
    if !AllowedUpload(filename) then Refused(UploadTypeError)
    else if frame.Err? then Unreadable(frame.error)
    else ProcessFrame(frame.value, mapping, required, build, keep, inserts)
  }

  /** The upload check, reading, mapping, the required-column check and the row loop. */
  method ImportSheet<R>(filename: string, frame: Result<Frame, string>, mapping: seq<Standard>, required: seq<string>,
                        build: (seq<string>, seq<Cell>) -> Result<R, string>, keep: R -> bool, inserts: seq<Insert>)
    returns (o: Outcome<R>)
    requires frame.Ok? ==> |inserts| == |frame.value.rows|
    ensures !AllowedUpload(filename) ==> o == Refused(UploadTypeError)
    ensures AllowedUpload(filename) && frame.Err? ==> o == Unreadable(frame.error)
    ensures AllowedUpload(filename) && frame.Ok? ==> o == ProcessFrame(frame.value, mapping, required, build, keep, inserts)
    ensures o == SheetOutcome(filename, frame, mapping, required, build, keep, inserts)
  {
    if !AllowedUpload(filename) {
      return Refused(UploadTypeError);
    }
    if frame.Err? {
      return Unreadable(frame.error);
    }
    var f := frame.value;
    var cols := MapColumns(f.columns, mapping);
    match ValidateRequiredColumns(cols, required) {
      case Err(e) =>
        o := Refused(e);
      case Ok(_) =>
        var stored, created, errors := ImportLoop(cols, f.rows, build, keep, inserts);
        o := Imported(|f.rows|, Import(stored, created, errors));
    }
  }

  /** The most error entries a response carries. */
  const MaxDetalhes := 10

  /** The import response: totals, and the first `MaxDetalhes` error entries. */
  datatype ImportResponse<E> = ImportResponse(message: string, totalProcessados: nat, criados: nat, erros: nat,
                                              detalhesErros: seq<E>)

  function Summary<R>(message: string, total: nat, run: Import<R>): (r: ImportResponse<RowError>)
    ensures r.criados == |run.created| && r.erros == |run.errors| && r.totalProcessados == total
    ensures |r.detalhesErros| <= MaxDetalhes && |r.detalhesErros| <= |run.errors| && r.detalhesErros == run.errors[..|r.detalhesErros|]
    ensures |run.errors| <= MaxDetalhes ==> r.detalhesErros == run.errors
  {
    ImportResponse(message, total, |run.created|, |run.errors|, Sorting.Take(run.errors, MaxDetalhes))
  }

  /** What `except Exception` raises once the file could not be read. */
  function ImportFailure(message: string): HttpError {
    HttpError(500, "Erro ao processar importação: " + message)
  }

  /** The meals endpoint: the documents inserted and the response, or the error it raises. */
  method ImportAlimentacao(filename: string, frame: Result<Frame, string>, inserts: seq<Insert>, agora: string)
    returns (r: Result<ImportResponse<RowError>, HttpError>, stored: seq<AlimentacaoImportada>)
    requires frame.Ok? ==> |inserts| == |frame.value.rows|
    ensures match SheetOutcome(filename, frame, AlimentacaoMapping, AlimentacaoRequired, AlimentacaoBuilder(agora), KeepAlimentacao, inserts)
      case Refused(e) => r == Err(e) && stored == []
      case Unreadable(m) => r == Err(ImportFailure(m)) && stored == []
      case Imported(total, run) => r == Ok(Summary("Importação de alimentação concluída", total, run)) && stored == run.stored
  {
    var o := ImportSheet(filename, frame, AlimentacaoMapping, AlimentacaoRequired, AlimentacaoBuilder(agora), KeepAlimentacao, inserts);
    match o {
      case Refused(e) => r, stored := Err(e), [];
      case Unreadable(m) => r, stored := Err(ImportFailure(m)), [];
      case Imported(total, run) =>
        r, stored := Ok(Summary("Importação de alimentação concluída", total, run)), run.stored;
    }
  }

  /** The materials endpoint. */
  method ImportMateriais(filename: string, frame: Result<Frame, string>, inserts: seq<Insert>, agora: string)
    returns (r: Result<ImportResponse<RowError>, HttpError>, stored: seq<MaterialImportado>)
    requires frame.Ok? ==> |inserts| == |frame.value.rows|
    ensures match SheetOutcome(filename, frame, MateriaisMapping, MateriaisRequired, MaterialBuilder(agora), KeepMaterial, inserts)
      case Refused(e) => r == Err(e) && stored == []
      case Unreadable(m) => r == Err(ImportFailure(m)) && stored == []
      case Imported(total, run) => r == Ok(Summary("Importação de materiais concluída", total, run)) && stored == run.stored
  {
    var o := ImportSheet(filename, frame, MateriaisMapping, MateriaisRequired, MaterialBuilder(agora), KeepMaterial, inserts);
    match o {
      case Refused(e) => r, stored := Err(e), [];
      case Unreadable(m) => r, stored := Err(ImportFailure(m)), [];
      case Imported(total, run) =>
        r, stored := Ok(Summary("Importação de materiais concluída", total, run)), run.stored;
    }
  }

  /** An attendance error entry: its line, the row (`row.to_dict()`, under the frame's labels) and the message. */
  datatype ErroFrequencia = ErroFrequencia(linha: int, dados: seq<Cell>, erro: string)

  /** The row an error line names, or no cells for a line outside the frame. */
  function RowAt(rows: seq<seq<Cell>>, linha: int): seq<Cell> {
    if 2 <= linha < |rows| + 2 then rows[linha - 2] else []
  }

  function WithDados(errors: seq<RowError>, rows: seq<seq<Cell>>): (r: seq<ErroFrequencia>)
    ensures |r| == |errors|
    ensures forall i :: 0 <= i < |errors| ==>
      r[i] == ErroFrequencia(errors[i].linha, RowAt(rows, errors[i].linha), errors[i].erro)
  {
    seq(|errors|, i requires 0 <= i < |errors| => ErroFrequencia(errors[i].linha, RowAt(rows, errors[i].linha), errors[i].erro))
  }

  /** The audit details of a finished attendance import, numbers as their decimal text. */
  function ImportDetalhes(filename: string, total: nat, criados: nat, erros: nat): map<string, string> {
    map["arquivo" := filename, "total_processados" := NatToString(total),
        "criados" := NatToString(criados), "erros" := NatToString(erros)]
  }

  /**
   * The attendance endpoint. Besides the response and the inserted
   * documents it appends to the audit log: a success entry after the loop,
   * an error entry when the file cannot be read, and nothing when it raises
   * an `HTTPException` (bad extension, missing columns).
   */
  method ImportFrequencia(logs: Logs.LogService, filename: string, frame: Result<Frame, string>, inserts: seq<Insert>,
                          agora: string, usuarioEmail: string, usuarioNome: string, ip: string,
                          logId: string, logInserted: bool)
    returns (r: Result<ImportResponse<ErroFrequencia>, HttpError>, stored: seq<FrequenciaImportada>)
    requires frame.Ok? ==> |inserts| == |frame.value.rows|
    modifies logs
    ensures match SheetOutcome(filename, frame, FrequenciaMapping, FrequenciaRequired, FrequenciaBuilder(agora), KeepFrequencia, inserts)
      case Refused(e) => r == Err(e) && stored == [] && logs.logs == old(logs.logs)
      case Unreadable(m) =>
        r == Err(ImportFailure(m)) && stored == []
        && logs.logs == old(logs.logs) + (if logInserted then [Logs.NewLog(logId, usuarioEmail, usuarioNome,
             "Tentativa de importação de frequência via " + filename, "import", "erro", Some("frequencia"),
             Some(map["erro" := m, "arquivo" := filename]), Some(ip), agora)] else [])
      case Imported(total, run) =>
        var s := Summary("Importação de frequência concluída", total, run);
        frame.Ok?
        && r == Ok(ImportResponse(s.message, s.totalProcessados, s.criados, s.erros, WithDados(s.detalhesErros, frame.value.rows)))
        && stored == run.stored
        && logs.logs == old(logs.logs) + (if logInserted then [Logs.NewLog(logId, usuarioEmail, usuarioNome,
             "Importação de frequência via " + filename, "import", "sucesso", Some("frequencia"),
             Some(ImportDetalhes(filename, total, |run.created|, |run.errors|)), Some(ip), agora)] else [])
  {
    var o := ImportSheet(filename, frame, FrequenciaMapping, FrequenciaRequired, FrequenciaBuilder(agora), KeepFrequencia, inserts);
    match o {
      case Refused(e) =>
        r, stored := Err(e), [];
      case Unreadable(m) =>
        var _ := logs.CreateLog(usuarioEmail, usuarioNome, "Tentativa de importação de frequência via " + filename,
                                "import", "erro", Some("frequencia"), Some(map["erro" := m, "arquivo" := filename]),
                                Some(ip), agora, logId, logInserted);
        r, stored := Err(ImportFailure(m)), [];
      case Imported(total, run) =>
        var _ := logs.CreateLog(usuarioEmail, usuarioNome, "Importação de frequência via " + filename,
                                "import", "sucesso", Some("frequencia"),
                                Some(ImportDetalhes(filename, total, |run.created|, |run.errors|)),
                                Some(ip), agora, logId, logInserted);
        var s := Summary("Importação de frequência concluída", total, run);
        r := Ok(ImportResponse(s.message, s.totalProcessados, s.criados, s.erros, WithDados(s.detalhesErros, frame.value.rows)));
        stored := run.stored;
    }
  }

  // ---------------------------------------------------------------------------
  // Exports
  // ---------------------------------------------------------------------------


  /** Some document has field `col`: it is a column of `pd.DataFrame(docs)`. */
  predicate Present(docs: seq<Doc>, col: string) {
    exists k :: 0 <= k < |docs| && col in FieldNames(docs[k])
  }

  /** `[col for col in column_order if col in df.columns]`. */
  function ExportColumns(docs: seq<Doc>, order: seq<(string, string)>): (r: seq<(string, string)>)
    ensures forall k :: 0 <= k < |r| ==> r[k] in order && Present(docs, r[k].0)
    ensures forall p :: p in order && Present(docs, p.0) ==> p in r
  {
    var keep := (p: (string, string)) => Present(docs, p.0);
    var r := Filter(order, keep);
    forall p | p in order && Present(docs, p.0)
      ensures p in r
    {
      var k :| 0 <= k < |order| && order[k] == p;
      FilterKeeps(order, keep, k);
    }
    r
  }

  const NotFound := HttpError(404, "Nenhum registro encontrado")

  /** The written sheet of the found documents: the headings of the present columns, one row per document. */
  function SheetOf(found: seq<Doc>, order: seq<(string, string)>): (s: Sheet)
    ensures var cols := ExportColumns(found, order);
      |s.header| == |cols| && |s.rows| == |found|
      && (forall j :: 0 <= j < |cols| ==> s.header[j] == cols[j].1)
      && (forall k :: 0 <= k < |found| ==> |s.rows[k]| == |cols|)
      && forall k, j :: 0 <= k < |found| && 0 <= j < |cols| ==> s.rows[k][j] == CellOf(found[k], cols[j].0)
  {
    var cols := ExportColumns(found, order);
    var labels := seq(|cols|, j requires 0 <= j < |cols| => cols[j].0);
    Sheet(seq(|cols|, j requires 0 <= j < |cols| => cols[j].1), DocRows(found, labels))
  }

  /**
   * An export: the documents in the date range, newest first, under the
   * present columns of the given order with their Portuguese headings; a
   * 404 when no document is in range.
   */
  function ExportSheet(docs: seq<Doc>, inicio: Option<string>, fim: Option<string>, order: seq<(string, string)>)
    : (r: Result<Sheet, HttpError>)
    ensures r.Err? <==> forall k :: 0 <= k < |docs| ==> !InRange(docs[k], inicio, fim)
    ensures r.Err? ==> r.error == NotFound
    ensures r.Ok? ==> r.value == SheetOf(FindForExport(docs, inicio, fim), order)
  {
    FindForExportEmpty(docs, inicio, fim);
    var found := FindForExport(docs, inicio, fim);
    if found == [] then Err(NotFound) else Ok(SheetOf(found, order))
  }

  const FrequenciaExportOrder: seq<(string, string)> := [
    ("funcionario_id", "Funcionário ID"), ("data", "Data"), ("hora_entrada", "Hora Entrada"),
    ("hora_saida", "Hora Saída"), ("horas_trabalhadas", "Horas Trabalhadas"), ("tipo_dia", "Tipo Dia"),
    ("observacao", "Observação")
  ]

  const AlimentacaoExportOrder: seq<(string, string)> := [
    ("funcionario_id", "Funcionário ID"), ("nome", "Nome"), ("data", "Data"), ("tipo_refeicao", "Tipo Refeição"),
    ("valor_unitario", "Valor Unitário"), ("quantidade", "Quantidade"), ("total_dia", "Total"),
    ("fornecedor", "Fornecedor")
  ]

  const MateriaisExportOrder: seq<(string, string)> := [
    ("data", "Data"), ("descricao", "Descrição"), ("local_uso", "Local de Uso"), ("categoria", "Categoria"),
    ("quantidade", "Quantidade"), ("valor_unitario", "Valor Unitário"), ("valor_total", "Valor Total"),
    ("autorizado_por", "Autorizado Por")
  ]
}
