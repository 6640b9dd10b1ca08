/**
 * The authentication dependencies endpoints declare: the bearer token's user
 * (a JWT whose `sub` claim names the user's email), the active-user and
 * administrator guards built on it, and the lenient variant that reads the
 * `Authorization` header itself and never refuses. Token decoding (signature
 * and expiry checks) is a foreign call and enters as the function `decode`.
 */
module AuthDeps {
  import opened Wrappers
  import opened Text
  import opened UsuarioModel

  /** The payload of a token `decode` accepted: its `sub` claim, when it has one. */
  datatype Claims = Claims(sub: Option<string>)

  /** A refusal: status, detail, and whether it carries `WWW-Authenticate: Bearer`. */
  datatype Refusal = Refusal(status: int, detail: string, bearerChallenge: bool)

  const InvalidOrExpired := Refusal(401, "Token inválido ou expirado", true)
  const MissingSubject := Refusal(401, "Token inválido", true)
  const UnknownSubject := Refusal(401, "Usuário não encontrado", true)
  const InactiveUser := Refusal(403, "Usuário inativo", false)
  const AdminOnly := Refusal(403, "Acesso negado. Apenas administradores podem acessar este recurso.", false)

  /**
   * `get_current_user`: the token must decode, carry a `sub`, and name the
   * email of a stored user; that user is returned without `senha_hash`,
   * its id as text.
   */
  function GetCurrentUser(token: string, decode: string -> Option<Claims>, rows: seq<Usuario>)
    : (r: Result<UsuarioSemSenha, Refusal>)
    ensures decode(token).None? ==> r == Err(InvalidOrExpired)
    ensures decode(token).Some? && decode(token).value.sub.None? ==> r == Err(MissingSubject)
    ensures decode(token).Some? && decode(token).value.sub.Some? ==>
      (r == Err(UnknownSubject) <==> forall i :: 0 <= i < |rows| ==> rows[i].email != decode(token).value.sub.value)
    ensures r.Err? ==> r.error.status == 401 && r.error.bearerChallenge
    ensures r.Ok? ==>
      decode(token).Some? && decode(token).value.sub.Some?
      && exists i :: 0 <= i < |rows| && rows[i].email == decode(token).value.sub.value && r.value == SemSenha(rows[i])
  {
    match decode(token)
    case None => Err(InvalidOrExpired)
    case Some(payload) =>
      match payload.sub
      case None => Err(MissingSubject)
      case Some(email) =>
        var i := IndexOfEmail(rows, email);
        if i < 0 then Err(UnknownSubject) else Ok(SemSenha(rows[i]))
  }

  /** `get_current_active_user`: a user whose `ativo` is false is refused; a missing `ativo` passes. */
  function GetCurrentActiveUser(u: UsuarioSemSenha): (r: Result<UsuarioSemSenha, Refusal>)
    ensures r.Ok? <==> IsActive(u.ativo)
    ensures r.Ok? ==> r.value == u
    ensures r.Err? ==> r.error == InactiveUser
  {
    if !IsActive(u.ativo) then Err(InactiveUser) else Ok(u)
  }

  /** `require_admin`: only the profile "admin" passes. */
  function RequireAdmin(u: UsuarioSemSenha): (r: Result<UsuarioSemSenha, Refusal>)
    ensures r.Ok? <==> u.perfil == "admin"
    ensures r.Ok? ==> r.value == u
    ensures r.Err? ==> r.error == AdminOnly
  {
    if u.perfil != "admin" then Err(AdminOnly) else Ok(u)
  }

  /** The dependency chain `Depends(get_current_active_user)`. */
  function ActiveUser(token: string, decode: string -> Option<Claims>, rows: seq<Usuario>): Result<UsuarioSemSenha, Refusal> {
    match GetCurrentUser(token, decode, rows)
    case Err(e) => Err(e)
    case Ok(u) => GetCurrentActiveUser(u)
  }

  /** The dependency chain `Depends(require_admin)`. */
  function AdminUser(token: string, decode: string -> Option<Claims>, rows: seq<Usuario>): Result<UsuarioSemSenha, Refusal> {
    match ActiveUser(token, decode, rows)
    case Err(e) => Err(e)
    case Ok(u) => RequireAdmin(u)
  }

  /**
   * A user who passes `require_admin` is a stored, active administrator whose
   * email the token's `sub` names; a failing token is refused with its 401
   * before any 403 is considered.
   */
  lemma AdminChain(token: string, decode: string -> Option<Claims>, rows: seq<Usuario>)
    ensures var r := AdminUser(token, decode, rows);
      r.Ok? ==>
        r.value.perfil == "admin" && IsActive(r.value.ativo)
        && decode(token).Some? && decode(token).value.sub.Some?
        && exists i :: 0 <= i < |rows| && rows[i].email == decode(token).value.sub.value && r.value == SemSenha(rows[i])
    ensures GetCurrentUser(token, decode, rows).Err? ==>
      AdminUser(token, decode, rows) == ActiveUser(token, decode, rows) == GetCurrentUser(token, decode, rows)
    ensures var a := AdminUser(token, decode, rows);
      a.Err? ==> a.error.status in {401, 403}
  {
  }

  /** An active non-administrator gets the administrator refusal, an inactive one the inactive refusal. */
  lemma AdminRefusals(token: string, decode: string -> Option<Claims>, rows: seq<Usuario>)
    requires GetCurrentUser(token, decode, rows).Ok?
    ensures var u := GetCurrentUser(token, decode, rows).value;
      (!IsActive(u.ativo) ==> AdminUser(token, decode, rows) == Err(InactiveUser))
      && (IsActive(u.ativo) && u.perfil != "admin" ==> AdminUser(token, decode, rows) == Err(AdminOnly))
  {
  }

  // ---------------------------------------------------------------------------
  // get_optional_user
  // ---------------------------------------------------------------------------

  const BearerPrefix := "Bearer "

  /**
   * `get_optional_user`: the header must start with "Bearer "; every
   * occurrence of "Bearer " is then removed to get the token; an invalid
   * token, a missing or empty `sub` and an unknown email all give None. The
   * user found is returned without `senha_hash` (its `_id` left as is).
   */
  function GetOptionalUser(header: Option<string>, decode: string -> Option<Claims>, rows: seq<Usuario>)
    : (r: Option<UsuarioSemSenha>)
    ensures header.None? || !StartsWith(header.value, BearerPrefix) ==> r.None?
    ensures r.Some? ==> exists i :: 0 <= i < |rows| && r.value == SemSenha(rows[i])
  {
    if header.None? || header.value == "" || !StartsWith(header.value, BearerPrefix) then None
    else
      var token := ReplaceAll(header.value, BearerPrefix, "");
      match decode(token)
      case None => None
      case Some(payload) =>
        if !Truthy(payload.sub) then None
        else
          var i := IndexOfEmail(rows, payload.sub.value);
          if i < 0 then None else Some(SemSenha(rows[i]))
  }

  /**
   * For a header "Bearer " + t whose token holds no further "Bearer ", the
   * lenient dependency finds exactly the user the strict one accepts
   * (before its active check); a user is never refused, only absent.
   */
  lemma OptionalAgreesWithCurrent(t: string, decode: string -> Option<Claims>, rows: seq<Usuario>)
    requires !Contains(t, BearerPrefix)
    requires decode(t).Some? ==> decode(t).value.sub != Some("")
    ensures var r := GetCurrentUser(t, decode, rows);
      GetOptionalUser(Some(BearerPrefix + t), decode, rows) == (if r.Ok? then Some(r.value) else None)
  {
    var h := BearerPrefix + t;
    assert h[..|BearerPrefix|] == BearerPrefix;
    assert h[|BearerPrefix|..] == t;
    ReplaceAbsent(t, BearerPrefix, "");
    assert ReplaceAll(h, BearerPrefix, "") == t;
    assert StartsWith(h, BearerPrefix) && h != "";
  }

  /** Removing every occurrence means a doubled scheme still reaches the inner token. */
  lemma OptionalStripsRepeatedScheme(t: string)
    requires !Contains(t, BearerPrefix)
    ensures ReplaceAll(BearerPrefix + BearerPrefix + t, BearerPrefix, "") == t
  {
    var h := BearerPrefix + BearerPrefix + t;
    assert h[..|BearerPrefix|] == BearerPrefix;
    assert h[|BearerPrefix|..] == BearerPrefix + t;
    assert (BearerPrefix + t)[..|BearerPrefix|] == BearerPrefix;
    assert (BearerPrefix + t)[|BearerPrefix|..] == t;
    ReplaceAbsent(t, BearerPrefix, "");
  }
}
