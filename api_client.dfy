/**
 * The frontend's HTTP client: how `fetchApi` composes the request URL and
 * headers and classifies what comes back, and the query strings the two
 * list calls build. The network is a foreign call: what it answers enters
 * as a `Transport` value. The form-urlencoded escaping of names and values
 * is the platform's and enters as the function `encode`.
 */
module ApiClient {
  import opened Wrappers
  import opened Text
  import opened Lists

  const DefaultBaseUrl := "http://localhost:8001"
  const ApiPrefix := "/api"

  /** `REACT_APP_BACKEND_URL || 'http://localhost:8001'`. */
  function BaseUrl(env: Option<string>): (r: string)
    ensures Truthy(env) ==> r == env.value
    ensures !Truthy(env) ==> r == DefaultBaseUrl
  {
    if Truthy(env) then env.value else DefaultBaseUrl
  }

  function Url(env: Option<string>, endpoint: string): string {
    BaseUrl(env) + ApiPrefix + endpoint
  }

  /** The URL is the base, then `/api`, then the endpoint exactly as given. */
  lemma UrlSpec(env: Option<string>, endpoint: string)
    ensures var u := Url(env, endpoint);
      StartsWith(u, BaseUrl(env) + ApiPrefix) && u[|BaseUrl(env) + ApiPrefix|..] == endpoint
  {
    var u := Url(env, endpoint);
    assert u[..|BaseUrl(env) + ApiPrefix|] == BaseUrl(env) + ApiPrefix;
  }

  /** `{ ...defaultHeaders, ...options.headers }`: the caller's entries win. */
  function Headers(caller: map<string, string>): (r: map<string, string>)
    ensures "Content-Type" in r
    ensures "Content-Type" !in caller ==> r["Content-Type"] == "application/json"
    ensures forall k :: k in caller ==> k in r && r[k] == caller[k]
    ensures forall k :: k in r ==> k == "Content-Type" || k in caller
  {
    map["Content-Type" := "application/json"] + caller
  }

  // ---------------------------------------------------------------------------
  // Classifying the response
  // ---------------------------------------------------------------------------

  /** The `detail` member of a parsed body: missing, a text, or some other JSON value. */
  datatype Detail = NoDetail | DetailText(text: string) | DetailOther

  /** A body as `response.json()` sees it. */
  datatype Body = Unparsable | Json(detail: Detail)

  datatype Reply = Reply(status: int, statusText: string, body: Body)

  /** What `fetch` does: reject (network failure, refused connection), or answer. */
  datatype Transport = Failed | Replied(reply: Reply)

  /** What the caller of `fetchApi` gets. `ParseRejected` is the body parser's own error. */
  datatype ApiResult =
    | Value(json: Body)
    | NullValue
    | ApiError(status: int, detail: Detail)
    | ConnectionError
    | ParseRejected

  const UnknownErrorDetail := "Erro desconhecido"
  const ConnectionErrorMessage := "Erro de conexão com o servidor"

  predicate Ok(status: int) {
    200 <= status <= 299
  }

  /** JavaScript truthiness of the `detail` value. */
  predicate DetailTruthy(d: Detail) {
    d.DetailOther? || (d.DetailText? && d.text != "")
  }

  /**
   * The error of a non-2xx reply: its `detail` when truthy, the status text
   * otherwise; an unreadable body reads as `{detail: 'Erro desconhecido'}`.
   */
  function ErrorOf(reply: Reply): (r: ApiResult)
    ensures r.ApiError? && r.status == reply.status
    ensures reply.body.Unparsable? ==> r.detail == DetailText(UnknownErrorDetail)
    ensures reply.body.Json? && DetailTruthy(reply.body.detail) ==> r.detail == reply.body.detail
    ensures reply.body.Json? && !DetailTruthy(reply.body.detail) ==> r.detail == DetailText(reply.statusText)
  {
    match reply.body
    case Unparsable => ApiError(reply.status, DetailText(UnknownErrorDetail))
    case Json(d) => ApiError(reply.status, if DetailTruthy(d) then d else DetailText(reply.statusText))
  }

  /**
   * `fetchApi` as written. The success body is returned with `return
   * response.json()`, not awaited inside the `try`, so a body that fails to
   * parse rejects after the `catch` and reaches the caller as the parser's
   * error.
   */
  function FetchApiAsWritten(t: Transport): (r: ApiResult)
    ensures t.Failed? ==> r == ConnectionError
    ensures t.Replied? && !Ok(t.reply.status) ==> r == ErrorOf(t.reply)
    ensures t.Replied? && Ok(t.reply.status) && t.reply.status == 204 ==> r == NullValue
    ensures t.Replied? && Ok(t.reply.status) && t.reply.status != 204 && t.reply.body.Unparsable? ==> r == ParseRejected
  {
    match t
    case Failed => ConnectionError
    case Replied(reply) =>
      if !Ok(reply.status) then ErrorOf(reply)
      else if reply.status == 204 then NullValue
      else if reply.body.Unparsable? then ParseRejected
      else Value(reply.body)
  }

  /** `fetchApi` with the success body awaited inside the `try`: every failure is an API error or the connection error. */
  function FetchApi(t: Transport): (r: ApiResult)
    ensures t.Failed? ==> r == ConnectionError
    ensures t.Replied? && !Ok(t.reply.status) ==> r == ErrorOf(t.reply)
    ensures t.Replied? && t.reply.status == 204 ==> r == NullValue
    ensures r.Value? <==> t.Replied? && Ok(t.reply.status) && t.reply.status != 204 && t.reply.body.Json?
    ensures r.Value? ==> r.json == t.reply.body
    ensures !r.ParseRejected?
  {
    match t
    case Failed => ConnectionError
    case Replied(reply) =>
      if !Ok(reply.status) then ErrorOf(reply)
      else if reply.status == 204 then NullValue
      else if reply.body.Unparsable? then ConnectionError
      else Value(reply.body)
  }

  /** The two differ exactly on a 2xx reply other than 204 whose body does not parse. */
  lemma AsWrittenDiffersOnlyOnUnparsableSuccess(t: Transport)
    ensures FetchApiAsWritten(t) != FetchApi(t) <==>
      t.Replied? && Ok(t.reply.status) && t.reply.status != 204 && t.reply.body.Unparsable?
  {
  }

  /** A 200 reply with an unreadable body escapes the connection-error mapping as written. */
  lemma UnparsableSuccessEscapes()
    ensures FetchApiAsWritten(Replied(Reply(200, "OK", Unparsable))) == ParseRejected
    ensures FetchApi(Replied(Reply(200, "OK", Unparsable))) == ConnectionError
  {
  }

  /** A refused reply always carries its status and a truthy detail, never an empty text. */
  lemma ErrorDetailNeverEmpty(reply: Reply)
    requires !Ok(reply.status) && reply.statusText != ""
    ensures var r := FetchApi(Replied(reply));
      r.ApiError? && r.status == reply.status && DetailTruthy(r.detail)
  {
  }

  // ---------------------------------------------------------------------------
  // Query strings
  // ---------------------------------------------------------------------------

  datatype Pair = Pair(name: string, value: string)

  function NameOf(p: Pair): string {
    p.name
  }

  /** The value of the first pair with this name. */
  function Lookup(pairs: seq<Pair>, name: string): Option<string> {
    if pairs == [] then None
    else if pairs[0].name == name then Some(pairs[0].value)
    else Lookup(pairs[1..], name)
  }

  /** `String(b)`. */
  function BoolText(b: bool): string {
    if b then "true" else "false"
  }

  datatype FuncionarioParams = FuncionarioParams(ativo: Option<bool>, setor: Option<string>)

  /**
   * The `funcionarios.getAll` parameters: `ativo` whenever it is given, even
   * false, then `setor` only when non-empty.
   */
  method FuncionarioQuery(params: Option<FuncionarioParams>) returns (pairs: seq<Pair>)
    ensures params.None? ==> pairs == []
    ensures params.Some? ==> Lookup(pairs, "ativo") == (if params.value.ativo.Some? then Some(BoolText(params.value.ativo.value)) else None)
    ensures params.Some? ==> Lookup(pairs, "setor") == (if Truthy(params.value.setor) then params.value.setor else None)
    ensures Subseq(MapSeq(pairs, NameOf), ["ativo", "setor"])
  {
    pairs := [];
    if params.Some? && params.value.ativo.Some? {
      pairs := pairs + [Pair("ativo", BoolText(params.value.ativo.value))];
    }
    if params.Some? && Truthy(params.value.setor) {
      pairs := pairs + [Pair("setor", params.value.setor.value)];
    }
  }

  datatype FrequenciaParams = FrequenciaParams(dataInicio: Option<string>, dataFim: Option<string>, funcionarioId: Option<string>)

  /** The `frequencia.getAll` parameters: each of the three, in this order, only when non-empty. */
  method FrequenciaQuery(params: Option<FrequenciaParams>) returns (pairs: seq<Pair>)
    ensures params.None? ==> pairs == []
    ensures params.Some? ==> Lookup(pairs, "data_inicio") == (if Truthy(params.value.dataInicio) then params.value.dataInicio else None)
    ensures params.Some? ==> Lookup(pairs, "data_fim") == (if Truthy(params.value.dataFim) then params.value.dataFim else None)
    ensures params.Some? ==> Lookup(pairs, "funcionario_id") == (if Truthy(params.value.funcionarioId) then params.value.funcionarioId else None)
    ensures Subseq(MapSeq(pairs, NameOf), ["data_inicio", "data_fim", "funcionario_id"])
  {
    assert "data_inicio"[5] != "data_fim"[5] && "funcionario_id"[0] != "data_fim"[0] && "funcionario_id"[0] != "data_inicio"[0];
    pairs := [];
    if params.Some? && Truthy(params.value.dataInicio) {
      pairs := Append(pairs, Pair("data_inicio", params.value.dataInicio.value));
    }
    assert Lookup(pairs, "data_fim").None? && Lookup(pairs, "funcionario_id").None?;
    if params.Some? && Truthy(params.value.dataFim) {
      pairs := Append(pairs, Pair("data_fim", params.value.dataFim.value));
    }
    assert Lookup(pairs, "funcionario_id").None?;
    if params.Some? && Truthy(params.value.funcionarioId) {
      pairs := Append(pairs, Pair("funcionario_id", params.value.funcionarioId.value));
    }
  }

  /** Appending a pair keeps the earlier names' values and gives the new name its value. */
  function Append(pairs: seq<Pair>, p: Pair): (r: seq<Pair>)
    ensures r == pairs + [p]
    ensures forall name :: Lookup(r, name) ==
                           if Lookup(pairs, name).Some? then Lookup(pairs, name) else if p.name == name then Some(p.value) else None
  {
    forall name
      ensures Lookup(pairs + [p], name) ==
        if Lookup(pairs, name).Some? then Lookup(pairs, name) else if p.name == name then Some(p.value) else None
    {
      LookupSnoc(pairs, p, name);
    }
    pairs + [p]
  }

  function PairText(p: Pair, encode: string -> string): string {
    encode(p.name) + "=" + encode(p.value)
  }

  /** `URLSearchParams.toString()`: the pairs, escaped, as `name=value` joined by `&`. */
  function Serialize(pairs: seq<Pair>, encode: string -> string): string {
    Join(MapSeq(pairs, p => PairText(p, encode)), "&")
  }

  /** The serialized parameters are empty exactly when there are none. */
  lemma {:induction false} SerializeEmptyIff(pairs: seq<Pair>, encode: string -> string)
    ensures Serialize(pairs, encode) == "" <==> pairs == []
    decreases |pairs|
  {
    if pairs != [] {
      var parts := MapSeq(pairs, p => PairText(p, encode));
      assert |PairText(pairs[0], encode)| > 0;
      if |pairs| > 1 {
        assert MapSeq(pairs, p => PairText(p, encode))[1..] == MapSeq(pairs[1..], p => PairText(p, encode));
      }
    }
  }

  /** The endpoint of a list call: the path, then `?` and the parameters when there are any. */
  function WithQuery(path: string, pairs: seq<Pair>, encode: string -> string): (r: string)
    ensures pairs == [] ==> r == path
    ensures pairs != [] ==> r == path + "?" + Serialize(pairs, encode)
  {
    SerializeEmptyIff(pairs, encode);
    var q := Serialize(pairs, encode);
    path + (if q != "" then "?" + q else "")
  }

  /**
   * The employee listing's endpoint and the parameters it carries: without
   * parameters the bare path, otherwise the path, `?` and the serialized
   * parameters. At most `ativo` then `setor` are sent, each at most once.
   */
  method FuncionariosEndpoint(params: Option<FuncionarioParams>, encode: string -> string) returns (endpoint: string, pairs: seq<Pair>)
    ensures params.None? ==> endpoint == "/funcionarios"
    ensures params.Some? && params.value.ativo.None? && !Truthy(params.value.setor) ==> endpoint == "/funcionarios"
    ensures params.Some? ==> Lookup(pairs, "ativo") == (if params.value.ativo.Some? then Some(BoolText(params.value.ativo.value)) else None)
    ensures params.Some? ==> Lookup(pairs, "setor") == (if Truthy(params.value.setor) then params.value.setor else None)
    ensures pairs != [] ==> endpoint == "/funcionarios?" + Serialize(pairs, encode)
    ensures Subseq(MapSeq(pairs, NameOf), ["ativo", "setor"])
  {
    pairs := FuncionarioQuery(params);
    if params.Some? && params.value.ativo.None? && !Truthy(params.value.setor) {
      LookupSomeName(pairs, ["ativo", "setor"]);
    }
    endpoint := WithQuery("/funcionarios", pairs, encode);
  }

  /** The record listing's endpoint and parameters, built the same way. */
  method FrequenciaEndpoint(params: Option<FrequenciaParams>, encode: string -> string) returns (endpoint: string, pairs: seq<Pair>)
    ensures params.None? ==> endpoint == "/frequencia"
    ensures params.Some? && !Truthy(params.value.dataInicio) && !Truthy(params.value.dataFim) && !Truthy(params.value.funcionarioId) ==>
      endpoint == "/frequencia"
    ensures params.Some? ==> Lookup(pairs, "data_inicio") == (if Truthy(params.value.dataInicio) then params.value.dataInicio else None)
    ensures params.Some? ==> Lookup(pairs, "data_fim") == (if Truthy(params.value.dataFim) then params.value.dataFim else None)
    ensures params.Some? ==> Lookup(pairs, "funcionario_id") == (if Truthy(params.value.funcionarioId) then params.value.funcionarioId else None)
    ensures pairs != [] ==> endpoint == "/frequencia?" + Serialize(pairs, encode)
    ensures Subseq(MapSeq(pairs, NameOf), ["data_inicio", "data_fim", "funcionario_id"])
  {
    pairs := FrequenciaQuery(params);
    if params.Some? && !Truthy(params.value.dataInicio) && !Truthy(params.value.dataFim) && !Truthy(params.value.funcionarioId) {
      LookupSomeName(pairs, ["data_inicio", "data_fim", "funcionario_id"]);
    }
    endpoint := WithQuery("/frequencia", pairs, encode);
  }

  /** A non-empty list whose names all come from `names` holds one of them. */
  lemma LookupSomeName(pairs: seq<Pair>, names: seq<string>)
    requires Subseq(MapSeq(pairs, NameOf), names)
    ensures pairs != [] ==> exists k :: 0 <= k < |names| && Lookup(pairs, names[k]).Some?
  {
    if pairs != [] {
      SubseqHeadIn(MapSeq(pairs, NameOf), names);
      var k :| 0 <= k < |names| && names[k] == pairs[0].name;
      assert Lookup(pairs, names[k]).Some?;
    }
  }

  /** Appending a pair leaves every earlier name's value, and gives a new name its value. */
  lemma {:induction false} LookupSnoc(pairs: seq<Pair>, p: Pair, name: string)
    ensures Lookup(pairs + [p], name) ==
      if Lookup(pairs, name).Some? then Lookup(pairs, name) else if p.name == name then Some(p.value) else None
    decreases |pairs|
  {
    if pairs != [] {
      assert (pairs + [p])[1..] == pairs[1..] + [p];
      LookupSnoc(pairs[1..], p, name);
    }
  }

  lemma {:induction false} SubseqHeadIn(a: seq<string>, s: seq<string>)
    requires a != [] && Subseq(a, s)
    ensures a[0] in s
    decreases |s|
  {
    if a[0] != s[0] {
      SubseqHeadIn(a, s[1..]);
    }
  }
}
