/**
 * The authentication endpoints over the `usuarios` collection: registering a
 * user, logging in, changing one's own password, listing, updating and
 * deactivating users. Password hashing and checking and token signing are
 * foreign calls and enter as function parameters; the clock enters as the
 * timestamp `now`.
 */
module AuthRouter {
  import opened Wrappers
  import opened Text
  import opened Lists
  import opened Sorting
  import opened UsuarioModel

  /** `ACCESS_TOKEN_EXPIRE_DAYS`: the default lifetime of an access token. */
  const AccessTokenExpireDays := 30

  /** `expires_in` of a login response: the token lifetime in seconds. */
  function ExpiresIn(): (s: int)
    ensures s == 2592000
  {
    AccessTokenExpireDays * 24 * 60 * 60
  }

  /** The `length` of the user listing's `to_list`. */
  const ListLimit := 1000

  /** What an endpoint answers, together with the collection it leaves behind. */
  datatype Outcome<T> = Outcome(response: Result<T, HttpError>, usuarios: seq<Usuario>)

  datatype LoginResponse = LoginResponse(accessToken: string, tokenType: string, usuario: UsuarioResponse, expiresIn: int)

  // ---------------------------------------------------------------------------
  // Object ids
  // ---------------------------------------------------------------------------

  predicate IsHexDigit(c: char) {
    '0' <= c <= '9' || 'a' <= c <= 'f' || 'A' <= c <= 'F'
  }

  /** A text `ObjectId(text)` accepts: 24 hexadecimal digits. */
  predicate IsObjectIdText(s: string) {
    |s| == 24 && forall k :: 0 <= k < |s| ==> IsHexDigit(s[k])
  }

  /** The text `str(ObjectId(...))` gives: 24 lower-case hexadecimal digits. */
  predicate IsStoredId(s: string) {
    |s| == 24 && forall k :: 0 <= k < |s| ==> '0' <= s[k] <= '9' || 'a' <= s[k] <= 'f'
  }

  /** `str(ObjectId(text))`: the id a path parameter denotes. */
  function IdOf(s: string): (r: string)
    requires IsObjectIdText(s)
    ensures IsStoredId(r)
  {
    Lower(s)
  }

  /** Every stored id reads back as itself. */
  lemma IdOfStored(s: string)
    requires IsStoredId(s)
    ensures IsObjectIdText(s) && IdOf(s) == s
  {
  }

  /** The error `ObjectId(text)` raises for anything else, reported as a 500 with the endpoint's prefix. */
  function InvalidId(prefix: string, s: string): HttpError {
    HttpError(500, prefix + "'" + s + "' is not a valid ObjectId, it must be a 12-byte input or a 24-character hex string")
  }

  // ---------------------------------------------------------------------------
  // The collection
  // ---------------------------------------------------------------------------

  predicate UniqueIds(rows: seq<Usuario>) {
    forall i, j :: 0 <= i < j < |rows| ==> rows[i].id != rows[j].id
  }

  /** The collection as the endpoints keep it: ids are ObjectId texts, ids and emails unique. */
  predicate ValidStore(rows: seq<Usuario>) {
    UniqueIds(rows) && UniqueEmails(rows) && forall i :: 0 <= i < |rows| ==> IsStoredId(rows[i].id)
  }

  /** `find_one({"_id": ObjectId(id)})`: the position of the document with this id, or -1. */
  function IndexOfId(rows: seq<Usuario>, id: string): (r: int)
    ensures -1 <= r < |rows|
    ensures r >= 0 ==> rows[r].id == id && forall i :: 0 <= i < r ==> rows[i].id != id
    ensures r == -1 <==> forall i :: 0 <= i < |rows| ==> rows[i].id != id
  {
    if rows == [] then -1
    else if rows[0].id == id then 0
    else
      var r := IndexOfId(rows[1..], id);
      assert forall i :: 1 <= i < |rows| ==> rows[i] == rows[1..][i - 1];
      if r == -1 then -1 else r + 1
  }

  /** Replacing one document by one with the same id and email keeps the collection valid. */
  lemma ReplacePreservesValid(rows: seq<Usuario>, i: nat, u: Usuario)
    requires ValidStore(rows) && i < |rows|
    requires u.id == rows[i].id && u.email == rows[i].email
    ensures ValidStore(rows[i := u])
  {
  }

  // ---------------------------------------------------------------------------
  // register
  // ---------------------------------------------------------------------------

  const EmailTaken := HttpError(400, "Email já cadastrado")

  /** The document `register` inserts: the request without `senha`, plus `senha_hash` and both timestamps. */
  function NewUsuario(data: UsuarioCreate, id: string, hash: string -> string, now: string): Usuario {
    Usuario(id, data.email, data.nome, PerfilName(data.perfil), Some(data.ativo), hash(data.senha), now, now)
  }

  /** `register`: refuses an email on file; otherwise inserts the new user and returns it without its hash. */
  function RegisterOutcome(rows: seq<Usuario>, data: UsuarioCreate, id: string, hash: string -> string, now: string)
    : (o: Outcome<UsuarioResponse>)
    ensures o.response.Err? <==> exists i :: 0 <= i < |rows| && rows[i].email == data.email
    ensures o.response.Err? ==> o == Outcome(Err(EmailTaken), rows)
  {
    if IndexOfEmail(rows, data.email) >= 0 then Outcome(Err(EmailTaken), rows)
    else
      var u := NewUsuario(data, id, hash, now);
      Outcome(Ok(Response(u)), rows + [u])
  }

  /**
   * A successful registration appends exactly one document, which holds the
   * hash of the password and the request's account fields, and answers with
   * that document's public view.
   */
  lemma RegisterStoresHash(rows: seq<Usuario>, data: UsuarioCreate, id: string, hash: string -> string, now: string)
    requires forall i :: 0 <= i < |rows| ==> rows[i].email != data.email
    ensures var o := RegisterOutcome(rows, data, id, hash, now);
      |o.usuarios| == |rows| + 1 && o.usuarios[..|rows|] == rows
      && o.usuarios[|rows|].senhaHash == hash(data.senha)
      && o.usuarios[|rows|].id == id && o.usuarios[|rows|].email == data.email
      && o.usuarios[|rows|].perfil == PerfilName(data.perfil) && IsActive(o.usuarios[|rows|].ativo) == data.ativo
      && o.response == Ok(Response(o.usuarios[|rows|]))
  {
  }

  lemma RegisterPreservesValid(rows: seq<Usuario>, data: UsuarioCreate, id: string, hash: string -> string, now: string)
    requires ValidStore(rows) && IsStoredId(id) && IndexOfId(rows, id) < 0
    ensures ValidStore(RegisterOutcome(rows, data, id, hash, now).usuarios)
  {
    if IndexOfEmail(rows, data.email) < 0 {
      var s := rows + [NewUsuario(data, id, hash, now)];
      assert forall i :: 0 <= i < |rows| ==> s[i] == rows[i];
    }
  }

  // ---------------------------------------------------------------------------
  // login
  // ---------------------------------------------------------------------------

  const BadCredentials := HttpError(401, "Email ou senha incorretos")
  const InactiveUser := HttpError(403, "Usuário inativo")

  /**
   * `login`: an unknown email and a wrong password are refused alike; an
   * inactive user is refused after the password check; otherwise the token
   * is signed for `{"sub": email}`.
   */
  function Login(rows: seq<Usuario>, email: string, senha: string, verify: (string, string) -> bool, sign: string -> string)
    : (r: Result<LoginResponse, HttpError>)
    ensures IndexOfEmail(rows, email) < 0 ==> r == Err(BadCredentials)
    ensures var i := IndexOfEmail(rows, email);
      i >= 0 ==> (r.Ok? <==> verify(senha, rows[i].senhaHash) && IsActive(rows[i].ativo))
    ensures var i := IndexOfEmail(rows, email);
      i >= 0 && !verify(senha, rows[i].senhaHash) ==> r == Err(BadCredentials)
    ensures var i := IndexOfEmail(rows, email);
      i >= 0 && verify(senha, rows[i].senhaHash) && !IsActive(rows[i].ativo) ==> r == Err(InactiveUser)
    ensures r.Ok? ==>
      r.value.accessToken == sign(email) && r.value.tokenType == "bearer"
      && r.value.usuario.email == email && r.value.expiresIn == ExpiresIn()
  {
    var i := IndexOfEmail(rows, email);
    if i < 0 then Err(BadCredentials)
    else
      var user := rows[i];
      if !verify(senha, user.senhaHash) then Err(BadCredentials)
      else if !IsActive(user.ativo) then Err(InactiveUser)
      else Ok(LoginResponse(sign(user.email), "bearer", Response(user), ExpiresIn()))
  }

  /** With unique emails: login succeeds exactly for a stored, active user whose hash the password matches. */
  lemma LoginSucceedsIff(rows: seq<Usuario>, email: string, senha: string, verify: (string, string) -> bool, sign: string -> string)
    requires UniqueEmails(rows)
    ensures Login(rows, email, senha, verify, sign).Ok? <==>
      exists i :: 0 <= i < |rows| && rows[i].email == email && verify(senha, rows[i].senhaHash) && IsActive(rows[i].ativo)
  {
    if exists i :: 0 <= i < |rows| && rows[i].email == email && verify(senha, rows[i].senhaHash) && IsActive(rows[i].ativo) {
      var i :| 0 <= i < |rows| && rows[i].email == email && verify(senha, rows[i].senhaHash) && IsActive(rows[i].ativo);
      IndexOfUniqueEmail(rows, i);
    }
  }

  /** The 401 does not tell an unknown email from a wrong password; an inactive account is told apart only behind the right password. */
  lemma LoginHidesUnknownEmail(rows: seq<Usuario>, known: string, unknown: string, senha: string,
                               verify: (string, string) -> bool, sign: string -> string)
    requires forall i :: 0 <= i < |rows| ==> rows[i].email != unknown
    requires IndexOfEmail(rows, known) >= 0 && !verify(senha, rows[IndexOfEmail(rows, known)].senhaHash)
    ensures Login(rows, unknown, senha, verify, sign) == Login(rows, known, senha, verify, sign)
    ensures Login(rows, unknown, senha, verify, sign).Err?
  {
  }

  // ---------------------------------------------------------------------------
  // me/password
  // ---------------------------------------------------------------------------

  const WrongCurrentPassword := HttpError(400, "Senha atual incorreta")

  /** `user["senha_hash"]` on the `None` that `find_one` returns for a vanished user. */
  const MissingUserError := HttpError(500, "Erro ao alterar senha: 'NoneType' object is not subscriptable")

  /**
   * `change_password` for the authenticated user `email`: the current
   * password must match the stored hash; then the hash is replaced and
   * `atualizado_em` refreshed.
   */
  function ChangePasswordOutcome(rows: seq<Usuario>, email: string, senhaAtual: string, novaSenha: string,
                                 verify: (string, string) -> bool, hash: string -> string, now: string)
    : (o: Outcome<string>)
    ensures |o.usuarios| == |rows|
    ensures o.response.Err? ==> o.usuarios == rows
    ensures var i := IndexOfEmail(rows, email);
      i >= 0 && !verify(senhaAtual, rows[i].senhaHash) ==> o.response == Err(WrongCurrentPassword)
    ensures var i := IndexOfEmail(rows, email);
      o.response.Ok? <==> i >= 0 && verify(senhaAtual, rows[i].senhaHash)
  {
    var i := IndexOfEmail(rows, email);
    if i < 0 then Outcome(Err(MissingUserError), rows)
    else if !verify(senhaAtual, rows[i].senhaHash) then Outcome(Err(WrongCurrentPassword), rows)
    else Outcome(Ok("Senha alterada com sucesso"), rows[i := rows[i].(senhaHash := hash(novaSenha), atualizadoEm := now)])
  }

  /**
   * A successful change touches only the user's own document, and there only
   * the hash and the timestamp; afterwards the new password logs in (when
   * `verify` accepts what `hash` produced and the user is active).
   */
  lemma ChangePasswordThenLogin(rows: seq<Usuario>, i: nat, senhaAtual: string, novaSenha: string,
                                verify: (string, string) -> bool, hash: string -> string, now: string,
                                sign: string -> string)
    requires UniqueEmails(rows) && i < |rows| && verify(senhaAtual, rows[i].senhaHash)
    requires forall p :: verify(p, hash(p))
    requires IsActive(rows[i].ativo)
    ensures var o := ChangePasswordOutcome(rows, rows[i].email, senhaAtual, novaSenha, verify, hash, now);
      o.response == Ok("Senha alterada com sucesso")
      && (forall k :: 0 <= k < |rows| && k != i ==> o.usuarios[k] == rows[k])
      && o.usuarios[i] == rows[i].(senhaHash := hash(novaSenha), atualizadoEm := now)
      && Login(o.usuarios, rows[i].email, novaSenha, verify, sign).Ok?
  {
    IndexOfUniqueEmail(rows, i);
    var o := ChangePasswordOutcome(rows, rows[i].email, senhaAtual, novaSenha, verify, hash, now);
    assert UniqueEmails(o.usuarios) by {
      assert forall k :: 0 <= k < |rows| ==> o.usuarios[k].email == rows[k].email;
    }
    LoginSucceedsIff(o.usuarios, rows[i].email, novaSenha, verify, sign);
    assert verify(novaSenha, o.usuarios[i].senhaHash);
  }

  // ---------------------------------------------------------------------------
  // users (listing)
  // ---------------------------------------------------------------------------

  function CriadoKey(u: Usuario): string {
    u.criadoEm
  }

  function ResponseCriadoKey(u: UsuarioResponse): string {
    u.criadoEm
  }

  /** `list_users`: newest first, at most ListLimit, each without its hash. */
  function ListUsers(rows: seq<Usuario>): (r: seq<UsuarioResponse>)
    ensures |r| == if |rows| < ListLimit then |rows| else ListLimit
    ensures SortedBy(r, ResponseCriadoKey, true)
    ensures |rows| <= ListLimit ==> multiset(r) == multiset(MapSeq(rows, Response))
    ensures forall u, k :: u in rows && Response(u) !in r && 0 <= k < |r| ==>
              Before(ResponseCriadoKey(r[k]), CriadoKey(u), true)
  {
    ListUsersOrder(rows);
    ListUsersContents(rows);
    MapSeq(Take(SortBy(rows, CriadoKey, true), ListLimit), Response)
  }

  /** The page holds the first ListLimit users, newest first. */
  lemma ListUsersOrder(rows: seq<Usuario>)
    ensures var r := MapSeq(Take(SortBy(rows, CriadoKey, true), ListLimit), Response);
      |r| == (if |rows| < ListLimit then |rows| else ListLimit) && SortedBy(r, ResponseCriadoKey, true)
  {
    var sorted := SortBy(rows, CriadoKey, true);
    var page := Take(sorted, ListLimit);
    TakeSorted(sorted, |page|, CriadoKey, true);
    ResponsesSorted(page);
  }

  /** Under the limit the page is every user's view; above it no user left off is newer than one listed. */
  lemma ListUsersContents(rows: seq<Usuario>)
    ensures var r := MapSeq(Take(SortBy(rows, CriadoKey, true), ListLimit), Response);
      (|rows| <= ListLimit ==> multiset(r) == multiset(MapSeq(rows, Response)))
      && forall u, k :: u in rows && Response(u) !in r && 0 <= k < |r| ==> Before(ResponseCriadoKey(r[k]), CriadoKey(u), true)
  {
    var page := Take(SortBy(rows, CriadoKey, true), ListLimit);
    TakeSortByFirst(rows, ListLimit, CriadoKey, true);
    ResponsesFirst(rows, page);
    if |rows| <= ListLimit {
      MapSeqMultiset(page, rows, Response);
    }
  }

  /** The public views of users sorted by creation stay sorted by creation. */
  lemma ResponsesSorted(page: seq<Usuario>)
    requires SortedBy(page, CriadoKey, true)
    ensures SortedBy(MapSeq(page, Response), ResponseCriadoKey, true)
  {
    var r := MapSeq(page, Response);
    forall i, j | 0 <= i < j < |r|
      ensures Before(ResponseCriadoKey(r[i]), ResponseCriadoKey(r[j]), true)
    {
      assert ResponseCriadoKey(r[i]) == CriadoKey(page[i]) && ResponseCriadoKey(r[j]) == CriadoKey(page[j]);
    }
  }

  /** A user whose view is not listed was left off the page, so it is no newer than any listed one. */
  lemma ResponsesFirst(rows: seq<Usuario>, page: seq<Usuario>)
    requires FirstInOrder(page, rows, CriadoKey, true)
    ensures var r := MapSeq(page, Response);
      forall u, k :: u in rows && Response(u) !in r && 0 <= k < |r| ==> Before(ResponseCriadoKey(r[k]), CriadoKey(u), true)
  {
    var r := MapSeq(page, Response);
    forall u, k | u in rows && Response(u) !in r && 0 <= k < |r|
      ensures Before(ResponseCriadoKey(r[k]), CriadoKey(u), true)
    {
      assert u !in page;
      assert ResponseCriadoKey(r[k]) == CriadoKey(page[k]);
    }
  }

  /** Every listed user is the public view of a stored one. */
  lemma ListUsersFromStore(rows: seq<Usuario>, k: nat)
    requires k < |ListUsers(rows)|
    ensures exists i :: 0 <= i < |rows| && ListUsers(rows)[k] == Response(rows[i])
  {
    var sorted := SortBy(rows, CriadoKey, true);
    assert ListUsers(rows)[k] == Response(sorted[k]);
    assert sorted[k] in multiset(rows);
    var i :| 0 <= i < |rows| && rows[i] == sorted[k];
  }

  // ---------------------------------------------------------------------------
  // users/{id} (update and deactivation)
  // ---------------------------------------------------------------------------

  const UserNotFound := HttpError(404, "Usuário não encontrado")
  const UpdateErrorPrefix := "Erro ao atualizar usuário: "
  const DeleteErrorPrefix := "Erro ao desativar usuário: "

  /** The `$set` of `update_user`: the supplied fields, a supplied `senha` as its hash, and `atualizado_em`. */
  function Patched(u: Usuario, p: UsuarioUpdate, hash: string -> string, now: string): Usuario {
    u.(nome := p.nome.GetOr(u.nome),
       perfil := if p.perfil.Some? then PerfilName(p.perfil.value) else u.perfil,
       ativo := if p.ativo.Some? then p.ativo else u.ativo,
       senhaHash := if p.senha.Some? then hash(p.senha.value) else u.senhaHash,
       atualizadoEm := now)
  }

  /** Only the supplied fields change, a supplied password is stored hashed, and the timestamp is refreshed. */
  lemma PatchedChangesOnlySupplied(u: Usuario, p: UsuarioUpdate, hash: string -> string, now: string)
    ensures var v := Patched(u, p, hash, now);
      v.id == u.id && v.email == u.email && v.criadoEm == u.criadoEm && v.atualizadoEm == now
      && (p.nome.None? ==> v.nome == u.nome) && (p.nome.Some? ==> v.nome == p.nome.value)
      && (p.perfil.None? ==> v.perfil == u.perfil) && (p.perfil.Some? ==> v.perfil == PerfilName(p.perfil.value))
      && (p.ativo.None? ==> v.ativo == u.ativo) && (p.ativo.Some? ==> IsActive(v.ativo) == p.ativo.value)
      && (p.senha.None? ==> v.senhaHash == u.senhaHash) && (p.senha.Some? ==> v.senhaHash == hash(p.senha.value))
  {
  }

  /** `update_user`: an id that is not an ObjectId text fails; an unknown id is a 404; otherwise the patch is applied. */
  function UpdateOutcome(rows: seq<Usuario>, userId: string, p: UsuarioUpdate, hash: string -> string, now: string)
    : (o: Outcome<UsuarioResponse>)
    ensures |o.usuarios| == |rows|
    ensures o.response.Err? ==> o.usuarios == rows
    ensures !IsObjectIdText(userId) ==> o.response == Err(InvalidId(UpdateErrorPrefix, userId))
    ensures IsObjectIdText(userId) ==> (o.response == Err(UserNotFound) <==> IndexOfId(rows, IdOf(userId)) < 0)
  {
    if !IsObjectIdText(userId) then Outcome(Err(InvalidId(UpdateErrorPrefix, userId)), rows)
    else
      var i := IndexOfId(rows, IdOf(userId));
      if i < 0 then Outcome(Err(UserNotFound), rows)
      else
        var v := Patched(rows[i], p, hash, now);
        Outcome(Ok(Response(v)), rows[i := v])
  }

  /** A successful update rewrites the one addressed document and answers with its new public view. */
  lemma UpdateTouchesOne(rows: seq<Usuario>, userId: string, p: UsuarioUpdate, hash: string -> string, now: string)
    requires ValidStore(rows)
    ensures var o := UpdateOutcome(rows, userId, p, hash, now);
      ValidStore(o.usuarios)
      && (o.response.Ok? ==>
            IsObjectIdText(userId)
            && (exists i ::
                  0 <= i < |rows| && rows[i].id == IdOf(userId)
                  && o.usuarios == rows[i := Patched(rows[i], p, hash, now)]
                  && o.response.value == Response(o.usuarios[i])))
  {
    var o := UpdateOutcome(rows, userId, p, hash, now);
    if o.response.Ok? {
      var i := IndexOfId(rows, IdOf(userId));
      ReplacePreservesValid(rows, i, Patched(rows[i], p, hash, now));
    }
  }

  const SelfDeactivation := HttpError(400, "Você não pode desativar seu próprio usuário")

  function DeactivatedMessage(email: string): string {
    "Usuário " + email + " desativado com sucesso"
  }

  /**
   * `delete_user` by the user whose id is `currentId`: refuses an invalid or
   * unknown id and the caller's own account; otherwise sets `ativo` false and
   * refreshes `atualizado_em`, keeping the document.
   */
  function DeleteOutcome(rows: seq<Usuario>, userId: string, currentId: Option<string>, now: string): (o: Outcome<string>)
    ensures |o.usuarios| == |rows|
    ensures o.response.Err? ==> o.usuarios == rows
    ensures !IsObjectIdText(userId) ==> o.response == Err(InvalidId(DeleteErrorPrefix, userId))
    ensures IsObjectIdText(userId) ==> (o.response == Err(UserNotFound) <==> IndexOfId(rows, IdOf(userId)) < 0)
  {
    if !IsObjectIdText(userId) then Outcome(Err(InvalidId(DeleteErrorPrefix, userId)), rows)
    else
      var i := IndexOfId(rows, IdOf(userId));
      if i < 0 then Outcome(Err(UserNotFound), rows)
      else if currentId == Some(rows[i].id) then Outcome(Err(SelfDeactivation), rows)
      else Outcome(Ok(DeactivatedMessage(rows[i].email)), rows[i := rows[i].(ativo := Some(false), atualizadoEm := now)])
  }

  /** The caller's own document is never changed by a deactivation, however the id is spelt. */
  lemma NoSelfDeactivation(rows: seq<Usuario>, userId: string, currentId: string, now: string)
    ensures var o := DeleteOutcome(rows, userId, Some(currentId), now);
      forall k :: 0 <= k < |rows| && rows[k].id == currentId ==> o.usuarios[k] == rows[k]
    ensures IsObjectIdText(userId) && IdOf(userId) == currentId && IndexOfId(rows, currentId) >= 0
      ==> DeleteOutcome(rows, userId, Some(currentId), now).response == Err(SelfDeactivation)
  {
  }

  /** A deactivation is a soft delete: one document's `ativo` becomes false, nothing is removed, all else stays. */
  lemma DeleteIsSoft(rows: seq<Usuario>, userId: string, currentId: Option<string>, now: string)
    requires ValidStore(rows)
    ensures var o := DeleteOutcome(rows, userId, currentId, now);
      ValidStore(o.usuarios)
      && (o.response.Ok? ==>
            IsObjectIdText(userId)
            && exists i ::
                 0 <= i < |rows| && rows[i].id == IdOf(userId) && Some(rows[i].id) != currentId
                 && o.usuarios == rows[i := rows[i].(ativo := Some(false), atualizadoEm := now)]
                 && !IsActive(o.usuarios[i].ativo)
                 && o.response.value == DeactivatedMessage(rows[i].email))
  {
    var o := DeleteOutcome(rows, userId, currentId, now);
    if o.response.Ok? {
      var i := IndexOfId(rows, IdOf(userId));
      ReplacePreservesValid(rows, i, rows[i].(ativo := Some(false), atualizadoEm := now));
    }
  }

  // ---------------------------------------------------------------------------
  // The endpoints over the stored collection
  // ---------------------------------------------------------------------------

  class UsuarioStore {
    var usuarios: seq<Usuario>

    predicate Valid()
      reads this
    {
      ValidStore(usuarios)
    }

    constructor ()
      ensures Valid() && usuarios == []
    {
      usuarios := [];
    }

    /** `register`, with the freshly generated ObjectId `newId`. */
    method Register(data: UsuarioCreate, newId: string, hash: string -> string, now: string)
      returns (r: Result<UsuarioResponse, HttpError>)
      requires Valid() && IsStoredId(newId) && IndexOfId(usuarios, newId) < 0
      modifies this
      ensures Valid()
      ensures Outcome(r, usuarios) == RegisterOutcome(old(usuarios), data, newId, hash, now)
    {
      RegisterPreservesValid(usuarios, data, newId, hash, now);
      var existing := IndexOfEmail(usuarios, data.email);
      if existing >= 0 {
        return Err(EmailTaken);
      }
      var user := NewUsuario(data, newId, hash, now);
      usuarios := usuarios + [user];
      r := Ok(Response(user));
    }

    /** `change_password` for the authenticated user `email`. */
    method ChangePassword(email: string, senhaAtual: string, novaSenha: string,
                          verify: (string, string) -> bool, hash: string -> string, now: string)
      returns (r: Result<string, HttpError>)
      requires Valid()
      modifies this
      ensures Valid()
      ensures Outcome(r, usuarios) == ChangePasswordOutcome(old(usuarios), email, senhaAtual, novaSenha, verify, hash, now)
    {
      var i := IndexOfEmail(usuarios, email);
      if i < 0 {
        return Err(MissingUserError);
      }
      if !verify(senhaAtual, usuarios[i].senhaHash) {
        return Err(WrongCurrentPassword);
      }
      ReplacePreservesValid(usuarios, i, usuarios[i].(senhaHash := hash(novaSenha), atualizadoEm := now));
      usuarios := usuarios[i := usuarios[i].(senhaHash := hash(novaSenha), atualizadoEm := now)];
      r := Ok("Senha alterada com sucesso");
    }

    /** `update_user`. */
    method UpdateUser(userId: string, p: UsuarioUpdate, hash: string -> string, now: string)
      returns (r: Result<UsuarioResponse, HttpError>)
      requires Valid()
      modifies this
      ensures Valid()
      ensures Outcome(r, usuarios) == UpdateOutcome(old(usuarios), userId, p, hash, now)
    {
      UpdateTouchesOne(usuarios, userId, p, hash, now);
      if !IsObjectIdText(userId) {
        return Err(InvalidId(UpdateErrorPrefix, userId));
      }
      var i := IndexOfId(usuarios, IdOf(userId));
      if i < 0 {
        return Err(UserNotFound);
      }
      var updated := Patched(usuarios[i], p, hash, now);
      usuarios := usuarios[i := updated];
      r := Ok(Response(updated));
    }

    /** `delete_user` by the user whose id is `currentId`. */
    method DeleteUser(userId: string, currentId: Option<string>, now: string) returns (r: Result<string, HttpError>)
      requires Valid()
      modifies this
      ensures Valid()
      ensures Outcome(r, usuarios) == DeleteOutcome(old(usuarios), userId, currentId, now)
    {
      DeleteIsSoft(usuarios, userId, currentId, now);
      if !IsObjectIdText(userId) {
        return Err(InvalidId(DeleteErrorPrefix, userId));
      }
      var i := IndexOfId(usuarios, IdOf(userId));
      if i < 0 {
        return Err(UserNotFound);
      }
      if currentId == Some(usuarios[i].id) {
        return Err(SelfDeactivation);
      }
      var email := usuarios[i].email;
      usuarios := usuarios[i := usuarios[i].(ativo := Some(false), atualizadoEm := now)];
      r := Ok(DeactivatedMessage(email));
    }
  }
}
