/**
 * The user account models: the stored document, the views of it the API
 * hands out (never with the password hash), and the request validators for
 * creating a user, updating one and changing one's own password.
 */
module UsuarioModel {
  import opened Wrappers
  import opened Text

  /** The two access profiles (`Literal["admin", "operacional"]`). */
  datatype Perfil = Admin | Operacional

  function PerfilName(p: Perfil): string {
    match p
    case Admin => "admin"
    case Operacional => "operacional"
  }

  /** The profile a request names, when it names one of the two. */
  function ParsePerfil(s: string): (r: Option<Perfil>)
    ensures r.Some? <==> s == "admin" || s == "operacional"
    ensures r.Some? ==> PerfilName(r.value) == s
  {
    if s == "admin" then Some(Admin)
    else if s == "operacional" then Some(Operacional)
    else None
  }

  lemma PerfilRoundTrip(p: Perfil)
    ensures ParsePerfil(PerfilName(p)) == Some(p)
  {
  }

  // ---------------------------------------------------------------------------
  // Password strength
  // ---------------------------------------------------------------------------

  /** Python's `any(p(c) for c in s)`. */
  function AnyChar(s: string, p: char -> bool): (r: bool)
    ensures r <==> exists k :: 0 <= k < |s| && p(s[k])
  {
    if s == [] then false
    else if p(s[0]) then true
    else
      var r := AnyChar(s[1..], p);
      assert forall k :: 1 <= k < |s| ==> s[k] == s[1..][k - 1];
      r
  }

  /** The strength rule: at least 8 characters, a letter and a digit. */
  predicate StrongPassword(v: string) {
    |v| >= 8 && (exists k :: 0 <= k < |v| && IsAlpha(v[k])) && (exists k :: 0 <= k < |v| && IsDigit(v[k]))
  }

  const ShortPasswordMessage := "Senha deve ter no mínimo 8 caracteres"
  const WeakPasswordMessage := "Senha deve conter letras e números"

  /**
   * `validate_password` of the create and change-password requests: the
   * length test first, then the letter-and-digit test; a password that
   * passes comes back unchanged.
   */
  function ValidatePassword(v: string): (r: Result<string, string>)
    ensures r.Ok? <==> StrongPassword(v)
    ensures r.Ok? ==> r.value == v
    ensures |v| < 8 ==> r == Err(ShortPasswordMessage)
    ensures |v| >= 8 && !StrongPassword(v) ==> r == Err(WeakPasswordMessage)
  {
    if |v| < 8 then Err(ShortPasswordMessage)
    else if !(AnyChar(v, IsAlpha) && AnyChar(v, IsDigit)) then Err(WeakPasswordMessage)
    else Ok(v)
  }

  /** `validate_password` of the update request: an absent password passes unchecked. */
  function ValidateOptionalPassword(v: Option<string>): (r: Result<Option<string>, string>)
    ensures v.None? ==> r == Ok(None)
  {
    match v
    case None => Ok(None)
    case Some(s) =>
      match ValidatePassword(s)
      case Ok(t) => Ok(Some(t))
      case Err(e) => Err(e)
  }

  /** Create, update and change-password apply one and the same rule to a supplied password. */
  lemma SamePasswordRule(v: string)
    ensures ValidateOptionalPassword(Some(v)).Ok? <==> ValidatePassword(v).Ok?
    ensures ValidateOptionalPassword(Some(v)).Err? ==> ValidateOptionalPassword(Some(v)).error == ValidatePassword(v).error
    ensures ValidatePassword(v).Ok? <==> StrongPassword(v)
  {
  }

  /** Eight letters, or eight digits, are not enough; one of each in eight characters is. */
  lemma PasswordExamples()
    ensures ValidatePassword("abcdefgh") == Err(WeakPasswordMessage)
    ensures ValidatePassword("12345678") == Err(WeakPasswordMessage)
    ensures ValidatePassword("abc123") == Err(ShortPasswordMessage)
    ensures ValidatePassword("senha123") == Ok("senha123")
  {
    assert !IsDigit("abcdefgh"[0]) && !IsDigit("abcdefgh"[1]) && !IsDigit("abcdefgh"[2]) && !IsDigit("abcdefgh"[3]);
    assert !IsDigit("abcdefgh"[4]) && !IsDigit("abcdefgh"[5]) && !IsDigit("abcdefgh"[6]) && !IsDigit("abcdefgh"[7]);
    assert !IsAlpha("12345678"[0]) && !IsAlpha("12345678"[1]) && !IsAlpha("12345678"[2]) && !IsAlpha("12345678"[3]);
    assert !IsAlpha("12345678"[4]) && !IsAlpha("12345678"[5]) && !IsAlpha("12345678"[6]) && !IsAlpha("12345678"[7]);
    assert IsAlpha("senha123"[0]) && IsDigit("senha123"[5]);
  }

  // ---------------------------------------------------------------------------
  // Requests
  // ---------------------------------------------------------------------------

  /** `nome: str = Field(..., min_length=3, max_length=100)`. */
  predicate NomeOk(nome: string) {
    3 <= |nome| <= 100
  }

  /** A create request as sent: `perfil` and `ativo` may be left out. */
  datatype UsuarioCreateInput = UsuarioCreateInput(
    email: string, nome: string, perfil: Option<string>, ativo: Option<bool>, senha: string)

  /** A validated create request (`UsuarioCreate`), its defaults filled in. */
  datatype UsuarioCreate = UsuarioCreate(email: string, nome: string, perfil: Perfil, ativo: bool, senha: string)

  /**
   * Validation of a create request: the name length, the profile literal
   * (absent means operacional), `ativo` (absent means true) and the
   * password rule.
   */
  function ParseCreate(i: UsuarioCreateInput): (r: Option<UsuarioCreate>)
    ensures r.Some? <==>
      NomeOk(i.nome) && (i.perfil.None? || i.perfil.value in {"admin", "operacional"}) && StrongPassword(i.senha)
    ensures r.Some? ==> r.value.email == i.email && r.value.nome == i.nome && r.value.senha == i.senha
    ensures r.Some? && i.perfil.None? ==> r.value.perfil == Operacional
    ensures r.Some? && i.perfil.Some? ==> PerfilName(r.value.perfil) == i.perfil.value
    ensures r.Some? ==> r.value.ativo == i.ativo.GetOr(true)
  {
    var perfil := if i.perfil.None? then Some(Operacional) else ParsePerfil(i.perfil.value);
    if NomeOk(i.nome) && perfil.Some? && ValidatePassword(i.senha).Ok? then
      Some(UsuarioCreate(i.email, i.nome, perfil.value, i.ativo.GetOr(true), i.senha))
    else None
  }

  /** `UsuarioUpdate`: every field optional; an absent field is one the request did not set. */
  datatype UsuarioUpdate = UsuarioUpdate(nome: Option<string>, perfil: Option<Perfil>, ativo: Option<bool>, senha: Option<string>)

  /** An update request passes validation: each supplied field obeys its create-time rule. */
  predicate UpdateOk(u: UsuarioUpdate) {
    (u.nome.Some? ==> NomeOk(u.nome.value)) && ValidateOptionalPassword(u.senha).Ok?
  }

  /** The update rules are the create rules, applied only to the fields supplied. */
  lemma UpdateRulesAreCreateRules(u: UsuarioUpdate)
    ensures UpdateOk(u) <==> (u.nome.Some? ==> NomeOk(u.nome.value)) && (u.senha.Some? ==> StrongPassword(u.senha.value))
    ensures UpdateOk(UsuarioUpdate(None, None, None, None))
  {
  }

  /** `ChangePasswordRequest`: the new password obeys the rule; the current one is not checked. */
  predicate ChangePasswordOk(senhaAtual: string, novaSenha: string) {
    ValidatePassword(novaSenha).Ok?
  }

  // ---------------------------------------------------------------------------
  // The stored document and its views
  // ---------------------------------------------------------------------------

  /**
   * A document of the `usuarios` collection: its id (the text of its
   * ObjectId), the account fields, the password hash and the two
   * timestamps. `ativo` may be missing in documents written by other means.
   */
  datatype Usuario = Usuario(
    id: string, email: string, nome: string, perfil: string, ativo: Option<bool>,
    senhaHash: string, criadoEm: string, atualizadoEm: string)

  /** A stored user with `senha_hash` popped: what the authentication dependencies hand to endpoints. */
  datatype UsuarioSemSenha = UsuarioSemSenha(
    id: string, email: string, nome: string, perfil: string, ativo: Option<bool>,
    criadoEm: string, atualizadoEm: string)

  function SemSenha(u: Usuario): (r: UsuarioSemSenha)
    ensures r.id == u.id && r.email == u.email && r.nome == u.nome && r.perfil == u.perfil
    ensures r.ativo == u.ativo && r.criadoEm == u.criadoEm && r.atualizadoEm == u.atualizadoEm
  {
    UsuarioSemSenha(u.id, u.email, u.nome, u.perfil, u.ativo, u.criadoEm, u.atualizadoEm)
  }

  /** `UsuarioResponse`: the fields an endpoint returns; a missing `ativo` is rendered as true. */
  datatype UsuarioResponse = UsuarioResponse(id: string, email: string, nome: string, perfil: string, ativo: bool, criadoEm: string)

  function Response(u: Usuario): (r: UsuarioResponse)
    ensures r.id == u.id && r.email == u.email && r.nome == u.nome && r.perfil == u.perfil
    ensures r.ativo == u.ativo.GetOr(true) && r.criadoEm == u.criadoEm
  {
    UsuarioResponse(u.id, u.email, u.nome, u.perfil, u.ativo.GetOr(true), u.criadoEm)
  }

  /** `user.get("ativo", True)`: a user without the field counts as active. */
  predicate IsActive(ativo: Option<bool>) {
    ativo.GetOr(true)
  }

  // ---------------------------------------------------------------------------
  // The collection
  // ---------------------------------------------------------------------------

  predicate UniqueEmails(rows: seq<Usuario>) {
    forall i, j :: 0 <= i < j < |rows| ==> rows[i].email != rows[j].email
  }

  /** `find_one({"email": email})`: the position of the first document with this email, or -1. */
  function IndexOfEmail(rows: seq<Usuario>, email: string): (r: int)
    ensures -1 <= r < |rows|
    ensures r >= 0 ==> rows[r].email == email && forall i :: 0 <= i < r ==> rows[i].email != email
    ensures r == -1 <==> forall i :: 0 <= i < |rows| ==> rows[i].email != email
  {
    if rows == [] then -1
    else if rows[0].email == email then 0
    else
      var r := IndexOfEmail(rows[1..], email);
      assert forall i :: 1 <= i < |rows| ==> rows[i] == rows[1..][i - 1];
      if r == -1 then -1 else r + 1
  }

  /** With unique emails, the document `find_one` returns is the only one with that email. */
  lemma IndexOfUniqueEmail(rows: seq<Usuario>, i: nat)
    requires UniqueEmails(rows) && i < |rows|
    ensures IndexOfEmail(rows, rows[i].email) == i
  {
  }
}
