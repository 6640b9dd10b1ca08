/**
 * The employee (funcionário) records and the field constraints their
 * create and update models enforce before a request reaches the service.
 */
module FuncionarioModel {
  import opened Wrappers
  import opened Patterns

  /** A stored employee. */
  datatype Funcionario = Funcionario(
    id: string,
    nome: string,
    cpf: string,
    cargo: string,
    setor: string,
    email: Option<string>,
    telefone: Option<string>,
    dataAdmissao: string,
    ativo: bool)

  /** The create request; `ativo` has already taken its default. */
  datatype FuncionarioCreate = FuncionarioCreate(
    nome: string,
    cpf: string,
    cargo: string,
    setor: string,
    email: Option<string>,
    telefone: Option<string>,
    dataAdmissao: string,
    ativo: bool)

  /** The update request: every field optional, `None` meaning "not supplied". */
  datatype FuncionarioUpdate = FuncionarioUpdate(
    nome: Option<string>,
    cpf: Option<string>,
    cargo: Option<string>,
    setor: Option<string>,
    email: Option<string>,
    telefone: Option<string>,
    ativo: Option<bool>)

  /** An absent `ativo` is true, on the create model and on the stored model alike. */
  const AtivoDefault := true

  predicate NomeOk(nome: string) {
    3 <= |nome| <= 200
  }

  /** The length rule shared by `cargo` and `setor`. */
  predicate CargoOk(s: string) {
    2 <= |s| <= 100
  }

  /**
   * The create model's constraints. `isEmail` is the `EmailStr` syntax check
   * of the e-mail validation library, which is not part of this model.
   */
  predicate CreateOk(c: FuncionarioCreate, isEmail: string -> bool) {
    NomeOk(c.nome) && IsCpf(c.cpf) && CargoOk(c.cargo) && CargoOk(c.setor)
    && (c.email.Some? ==> isEmail(c.email.value))
    && (c.telefone.Some? ==> IsTelefone(c.telefone.value))
  }

  /** Each supplied field obeys the create rule; absent fields are not checked. */
  predicate UpdateOk(u: FuncionarioUpdate, isEmail: string -> bool) {
    (u.nome.Some? ==> NomeOk(u.nome.value))
    && (u.cpf.Some? ==> IsCpf(u.cpf.value))
    && (u.cargo.Some? ==> CargoOk(u.cargo.value))
    && (u.setor.Some? ==> CargoOk(u.setor.value))
    && (u.email.Some? ==> isEmail(u.email.value))
    && (u.telefone.Some? ==> IsTelefone(u.telefone.value))
  }

  /** The update that supplies every field of a create request. */
  function AsUpdate(c: FuncionarioCreate): FuncionarioUpdate {
    FuncionarioUpdate(Some(c.nome), Some(c.cpf), Some(c.cargo), Some(c.setor), c.email, c.telefone, Some(c.ativo))
  }

  /** Update fields obey the same constraints as create fields when present. */
  lemma UpdateRulesAreCreateRules(c: FuncionarioCreate, isEmail: string -> bool)
    ensures UpdateOk(AsUpdate(c), isEmail) <==> CreateOk(c, isEmail)
  {
  }

  /** An empty update passes validation. */
  lemma EmptyUpdateOk(isEmail: string -> bool)
    ensures UpdateOk(FuncionarioUpdate(None, None, None, None, None, None, None), isEmail)
  {
  }

  /** The constraints stated position by position, with the patterns unfolded. */
  lemma CreateOkShape(c: FuncionarioCreate, isEmail: string -> bool)
    ensures CreateOk(c, isEmail) <==>
      3 <= |c.nome| <= 200 && CpfShape(c.cpf) && 2 <= |c.cargo| <= 100 && 2 <= |c.setor| <= 100
      && (c.email.Some? ==> isEmail(c.email.value))
      && (c.telefone.Some? ==> TelefoneShape(c.telefone.value, 4) || TelefoneShape(c.telefone.value, 5))
  {
    CpfIff(c.cpf);
    if c.telefone.Some? {
      TelefoneIff(c.telefone.value);
    }
  }
}
