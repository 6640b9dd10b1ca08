/**
 * The audit-log service over the `logs` collection: appending a log,
 * the filtered newest-first listing and the per-kind and per-status counts.
 * A log's `data_hora` is the UTC insertion time; it is held here as
 * fixed-width ISO-8601 text, whose string order is time order, so the
 * `$gte`/`$lte` bounds and the descending sort compare that text.
 */
module Logs {
  import opened Wrappers
  import opened Text
  import opened Lists
  import opened Sorting

  /** A stored log; `id` is the text of the inserted `_id`. */
  datatype LogEntry = LogEntry(
    id: string,
    usuarioEmail: string,
    usuarioNome: string,
    acao: string,
    tipo: string,
    modulo: Option<string>,
    status: string,
    detalhes: map<string, string>,
    ipOrigem: Option<string>,
    dataHora: string)

  /** `detalhes or {}`: no details, or empty ones, are stored as the empty dictionary. */
  function DetalhesOrEmpty(d: Option<map<string, string>>): (r: map<string, string>)
    ensures d.Some? ==> r == d.value
    ensures r == map[] <==> d.None? || d.value == map[]
  {
    if d.None? || d.value == map[] then map[] else d.value
  }

  /** The document `create_log` inserts. */
  function NewLog(id: string, usuarioEmail: string, usuarioNome: string, acao: string, tipo: string, status: string,
                  modulo: Option<string>, detalhes: Option<map<string, string>>, ipOrigem: Option<string>,
                  agora: string): LogEntry {
    LogEntry(id, usuarioEmail, usuarioNome, acao, tipo, modulo, status, DetalhesOrEmpty(detalhes), ipOrigem, agora)
  }

  /** The query document: the fields it constrains and the `data_hora` bounds. */
  datatype LogQuery = LogQuery(
    usuarioEmail: Option<string>,
    tipo: Option<string>,
    modulo: Option<string>,
    status: Option<string>,
    gte: Option<string>,
    lte: Option<string>)

  /** Keeps a text filter only when it is truthy. */
  function IfGiven(o: Option<string>): Option<string> {
    if Truthy(o) then o else None
  }

  /** The query `get_logs` builds field by field; a datetime bound is always truthy. */
  function QueryFor(usuarioEmail: Option<string>, tipo: Option<string>, modulo: Option<string>,
                    status: Option<string>, dataInicio: Option<string>, dataFim: Option<string>): LogQuery {
    LogQuery(IfGiven(usuarioEmail), IfGiven(tipo), IfGiven(modulo), IfGiven(status), dataInicio, dataFim)
  }

  /** MongoDB's match of a log against the query; a missing `modulo` matches no given module. */
  predicate Matches(l: LogEntry, q: LogQuery) {
    (q.usuarioEmail.Some? ==> l.usuarioEmail == q.usuarioEmail.value)
    && (q.tipo.Some? ==> l.tipo == q.tipo.value)
    && (q.modulo.Some? ==> l.modulo == q.modulo)
    && (q.status.Some? ==> l.status == q.status.value)
    && (q.gte.Some? ==> LexLe(q.gte.value, l.dataHora))
    && (q.lte.Some? ==> LexLe(l.dataHora, q.lte.value))
  }

  /** The selection stated per argument: every given filter constrains, an unset or empty one does not. */
  predicate Selected(l: LogEntry, usuarioEmail: Option<string>, tipo: Option<string>, modulo: Option<string>,
                     status: Option<string>, dataInicio: Option<string>, dataFim: Option<string>) {
    (Truthy(usuarioEmail) ==> l.usuarioEmail == usuarioEmail.value)
    && (Truthy(tipo) ==> l.tipo == tipo.value)
    && (Truthy(modulo) ==> l.modulo == modulo)
    && (Truthy(status) ==> l.status == status.value)
    && (dataInicio.Some? ==> LexLe(dataInicio.value, l.dataHora))
    && (dataFim.Some? ==> LexLe(l.dataHora, dataFim.value))
  }

  lemma QueryForSelects(l: LogEntry, usuarioEmail: Option<string>, tipo: Option<string>, modulo: Option<string>,
                        status: Option<string>, dataInicio: Option<string>, dataFim: Option<string>)
    ensures Matches(l, QueryFor(usuarioEmail, tipo, modulo, status, dataInicio, dataFim))
            <==> Selected(l, usuarioEmail, tipo, modulo, status, dataInicio, dataFim)
  {
  }

  function DataHoraKey(l: LogEntry): string {
    l.dataHora
  }

  /** `find(query).sort("data_hora", -1).limit(limite)`. */
  function Find(rows: seq<LogEntry>, q: LogQuery, limite: nat): (r: seq<LogEntry>)
    ensures forall k :: 0 <= k < |r| ==> r[k] in rows && Matches(r[k], q)
    ensures SortedBy(r, DataHoraKey, true)
    ensures |r| <= limite
    ensures |Filter(rows, x => Matches(x, q))| <= limite ==> multiset(r) == multiset(Filter(rows, x => Matches(x, q)))
    ensures var m := Filter(rows, x => Matches(x, q));
      |r| == (if |m| < limite then |m| else limite) && FirstInOrder(r, m, DataHoraKey, true)
  {
    var matching := Filter(rows, x => Matches(x, q));
    var sorted := SortBy(matching, DataHoraKey, true);
    var r := Take(sorted, limite);
    TakeSortByFirst(matching, limite, DataHoraKey, true);
    forall k | 0 <= k < |r|
      ensures r[k] in rows && Matches(r[k], q)
    {
      assert r[k] == sorted[k];
      assert sorted[k] in multiset(matching);
    }
    r
  }

  /** Every matching log is found when no more than `limite` match. */
  lemma FindComplete(rows: seq<LogEntry>, q: LogQuery, limite: nat, i: nat)
    requires i < |rows| && Matches(rows[i], q)
    requires |Filter(rows, x => Matches(x, q))| <= limite
    ensures rows[i] in Find(rows, q, limite)
  {
    FilterKeeps(rows, x => Matches(x, q), i);
    assert rows[i] in multiset(Find(rows, q, limite));
  }

  function TipoKey(l: LogEntry): string {
    l.tipo
  }

  function StatusKey(l: LogEntry): string {
    l.status
  }

  /** The stats document: `total`, then the `$group` counts by kind and by status. */
  datatype LogStats = LogStats(total: nat, porTipo: Tally<string>, porStatus: Tally<string>)

  /** The audit-log store. A failing store operation is an argument: it is what the `try` blocks catch. */
  class LogService {
    var logs: seq<LogEntry>

    constructor ()
      ensures logs == []
    {
      logs := [];
    }

    /**
     * `create_log`: stores the log stamped `agora` and returns its id; when
     * the insert fails (`inserted` false) it returns None instead of raising.
     */
    method CreateLog(usuarioEmail: string, usuarioNome: string, acao: string, tipo: string, status: string,
                     modulo: Option<string>, detalhes: Option<map<string, string>>, ipOrigem: Option<string>,
                     agora: string, newId: string, inserted: bool) returns (r: Option<string>)
      modifies this
      ensures inserted ==>
        r == Some(newId)
        && logs == old(logs) + [NewLog(newId, usuarioEmail, usuarioNome, acao, tipo, status, modulo, detalhes, ipOrigem, agora)]
      ensures !inserted ==> r == None && logs == old(logs)
    {
      if !inserted {
        return None;
      }
      var l := NewLog(newId, usuarioEmail, usuarioNome, acao, tipo, status, modulo, detalhes, ipOrigem, agora);
      logs := logs + [l];
      r := Some(newId);
    }

    /**
     * `get_logs`: the logs matching every given filter, newest first, at most
     * `limite` of them; `[]` when the store fails (`available` false).
     */
    function GetLogs(usuarioEmail: Option<string>, tipo: Option<string>, modulo: Option<string>,
                     status: Option<string>, dataInicio: Option<string>, dataFim: Option<string>,
                     limite: nat, available: bool): (r: seq<LogEntry>)
      reads this
      requires limite >= 1
      ensures !available ==> r == []
      ensures forall k :: 0 <= k < |r| ==>
                r[k] in logs && Selected(r[k], usuarioEmail, tipo, modulo, status, dataInicio, dataFim)
      ensures SortedBy(r, DataHoraKey, true) && |r| <= limite
      ensures var q := QueryFor(usuarioEmail, tipo, modulo, status, dataInicio, dataFim);
        available && |Filter(logs, x => Matches(x, q))| <= limite ==> multiset(r) == multiset(Filter(logs, x => Matches(x, q)))
      ensures var m := Filter(logs, x => Matches(x, QueryFor(usuarioEmail, tipo, modulo, status, dataInicio, dataFim)));
        available ==> |r| == (if |m| < limite then |m| else limite) && FirstInOrder(r, m, DataHoraKey, true)
    {
      if !available then []
      else
        var q := QueryFor(usuarioEmail, tipo, modulo, status, dataInicio, dataFim);
        var r := Find(logs, q, limite);
        forall k | 0 <= k < |r|
          ensures Selected(r[k], usuarioEmail, tipo, modulo, status, dataInicio, dataFim)
        {
          QueryForSelects(r[k], usuarioEmail, tipo, modulo, status, dataInicio, dataFim);
        }
        r
    }

    /** `get_recent_logs`: the newest `limite` logs. */
    function GetRecentLogs(limite: nat, available: bool): (r: seq<LogEntry>)
      reads this
      requires limite >= 1
      ensures !available ==> r == []
      ensures forall k :: 0 <= k < |r| ==> r[k] in logs
      ensures SortedBy(r, DataHoraKey, true) && |r| <= limite
      ensures available && |logs| <= limite ==> multiset(r) == multiset(logs)
      ensures available ==> |r| == (if |logs| < limite then |logs| else limite) && FirstInOrder(r, logs, DataHoraKey, true)
    {
      FilterKeepsAll(logs, x => Matches(x, QueryFor(None, None, None, None, None, None)));
      GetLogs(None, None, None, None, None, None, limite, available)
    }

    /** `get_user_logs`: the newest `limite` logs of one user. */
    function GetUserLogs(usuarioEmail: string, limite: nat, available: bool): (r: seq<LogEntry>)
      reads this
      requires limite >= 1
      ensures !available ==> r == []
      ensures forall k :: 0 <= k < |r| ==> r[k] in logs && (usuarioEmail != "" ==> r[k].usuarioEmail == usuarioEmail)
      ensures SortedBy(r, DataHoraKey, true) && |r| <= limite
      ensures var m := Filter(logs, (x: LogEntry) => usuarioEmail == "" || x.usuarioEmail == usuarioEmail);
        available ==> |r| == (if |m| < limite then |m| else limite) && FirstInOrder(r, m, DataHoraKey, true)
    {
      FilterSame(logs, x => Matches(x, QueryFor(Some(usuarioEmail), None, None, None, None, None)),
                 (x: LogEntry) => usuarioEmail == "" || x.usuarioEmail == usuarioEmail);
      GetLogs(Some(usuarioEmail), None, None, None, None, None, limite, available)
    }

    /**
     * `get_logs_stats`: the number of logs and the count of each kind and of
     * each status; zeros and empty counts when the store fails.
     */
    function GetLogsStats(available: bool): (s: LogStats)
      reads this
      ensures !available ==> s == LogStats(0, [], [])
      ensures available ==> s.total == |logs| && TalliesOf(s.porTipo, logs, TipoKey) && TalliesOf(s.porStatus, logs, StatusKey)
      ensures Total(s.porTipo) == s.total && Total(s.porStatus) == s.total
    {
      if !available then LogStats(0, [], [])
      else
        TallyByTallies(logs, TipoKey);
        TallyByTallies(logs, StatusKey);
        LogStats(|logs|, TallyBy(logs, TipoKey), TallyBy(logs, StatusKey))
    }

    /** A user's listing is the general listing with only that user's email given. */
    lemma UserLogsAreFiltered(usuarioEmail: string, limite: nat)
      requires limite >= 1 && usuarioEmail != ""
      ensures var r := GetUserLogs(usuarioEmail, limite, true);
        |Filter(logs, (x: LogEntry) => x.usuarioEmail == usuarioEmail)| <= limite
        ==> multiset(r) == multiset(Filter(logs, (x: LogEntry) => x.usuarioEmail == usuarioEmail))
    {
      var q := QueryFor(Some(usuarioEmail), None, None, None, None, None);
      FilterSame(logs, x => Matches(x, q), (x: LogEntry) => x.usuarioEmail == usuarioEmail);
    }
  }
}
