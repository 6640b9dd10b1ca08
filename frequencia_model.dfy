/**
 * Attendance (frequência) records: the kind of day, the optional clock-in
 * and clock-out times with their `HH:MM` pattern, and the update request,
 * which has no employee or date field.
 */
module FrequenciaModel {
  import opened Wrappers
  import opened Patterns

  datatype TipoDia = Util | Feriado | FimDeSemana

  /** An absent `tipo_dia` is a working day. */
  const TipoDiaDefault := Util

  function TipoDiaName(t: TipoDia): string {
    match t
    case Util => "util"
    case Feriado => "feriado"
    case FimDeSemana => "fim_de_semana"
  }

  /** The `Literal['util', 'feriado', 'fim_de_semana']` validation of a submitted value. */
  function ParseTipoDia(s: string): (r: Option<TipoDia>)
    ensures r.Some? <==> s == "util" || s == "feriado" || s == "fim_de_semana"
    ensures r.Some? ==> TipoDiaName(r.value) == s
  {
    if s == "util" then Some(Util)
    else if s == "feriado" then Some(Feriado)
    else if s == "fim_de_semana" then Some(FimDeSemana)
    else None
  }

  lemma TipoDiaRoundTrip(t: TipoDia)
    ensures ParseTipoDia(TipoDiaName(t)) == Some(t)
  {
  }

  /** The create request; `tipo_dia` has already taken its default. */
  datatype RegistroFrequenciaCreate = RegistroFrequenciaCreate(
    funcionarioId: string,
    data: string,
    tipoDia: TipoDia,
    horaEntrada: Option<string>,
    horaSaida: Option<string>,
    observacao: Option<string>)

  /** The update request: only times, kind of day and remark can be supplied. */
  datatype RegistroFrequenciaUpdate = RegistroFrequenciaUpdate(
    horaEntrada: Option<string>,
    horaSaida: Option<string>,
    tipoDia: Option<TipoDia>,
    observacao: Option<string>)

  /** A stored record: the create fields plus id, the employee's name and the computed hours (in minutes). */
  datatype RegistroFrequencia = RegistroFrequencia(
    id: string,
    funcionarioId: string,
    data: string,
    tipoDia: TipoDia,
    horaEntrada: Option<string>,
    horaSaida: Option<string>,
    observacao: Option<string>,
    nome: Option<string>,
    totalHoras: Option<int>)

  /** An optional time field obeys `^\d{2}:\d{2}$` when present. */
  predicate HoraFieldOk(h: Option<string>) {
    h.Some? ==> IsHora(h.value)
  }

  predicate CreateOk(c: RegistroFrequenciaCreate) {
    HoraFieldOk(c.horaEntrada) && HoraFieldOk(c.horaSaida)
  }

  predicate UpdateOk(u: RegistroFrequenciaUpdate) {
    HoraFieldOk(u.horaEntrada) && HoraFieldOk(u.horaSaida)
  }

  /** The time pattern checks shape only: `25:00` and `99:99` are admitted. */
  lemma PatternHasNoRange(c: RegistroFrequenciaCreate)
    requires c.horaEntrada == Some("25:00") && c.horaSaida == Some("99:99")
    ensures CreateOk(c)
  {
    HoraAcceptsOutOfRange();
  }

  /** A time field is valid iff absent or two digits, a colon and two digits. */
  lemma HoraFieldShape(h: Option<string>)
    ensures HoraFieldOk(h) <==> h.None? || HoraShape(h.value)
  {
    if h.Some? {
      HoraIff(h.value);
    }
  }
}
