# sync-ops-flow core, modelled in Dafny

sync-ops-flow is an HR operations dashboard. A FastAPI backend over MongoDB
keeps employees (`funcionarios`), daily attendance records (`frequencia`),
users and audit logs. It imports and exports Excel sheets and builds
attendance reports. A React frontend lists and edits employees, configures
webhooks and shows summary figures. A Supabase edge function fans an event
out to the webhooks subscribed to it.

This project models that core in Dafny and proves properties of the model:

- The webhook dispatcher (`webhooks.dfy`): which webhooks receive an event, the delivery counters, and the event's final state.
- The employee and attendance services (`funcionarios.dfy`, `frequencias.dfy`). Each Mongo collection is a class with a `seq` of documents that the methods reassign.
- The validation rules of the employee, attendance and user records (`funcionario_model.dfy`, `frequencia_model.dfy`, `usuario_model.dfy`, `patterns.dfy`).
- Reports and the audit log (`relatorios.dfy`, `logs.dfy`).
- The three Excel modules (`excel_router.dfy`, `excel_importacao.dfy`, `excel_service.dfy`, sharing `sheets.dfy` and `import_rows.dfy`): column mapping, row conversion, per-row error collection, and the export/import round trip.
- Authentication (`auth_router.dfy`, `auth_deps.dfy`): registration, login, password change, user update and soft delete, and the token-to-user dependency chain.
- The frontend: the HTTP client (`api_client.dfy`), the employee table's filtering and selection (`funcionarios_table.dfy`), the webhook dialog (`webhook_dialog.dfy`), the settings page (`configuracoes.dfy`), the employee form (`funcionario_form.dfy`), the dashboard figures (`dashboard_stats.dfy`) and the route guard (`protected_route.dfy`).

`wrappers.dfy`, `text.dfy`, `lists.dfy`, `sorting.dfy` and `dates.dfy` hold
the shared definitions: Option/Result, string operations, filtering and
counting, a sort with its permutation proof, and ISO dates.

Dependencies outside the core enter the model as parameters:

- the database when it is unavailable (an `available` flag);
- password hashing and JWT signing, verification and decoding;
- e-mail syntax;
- the clock, and fresh ids (uuid4/ObjectId);
- the HTTP transport;
- pandas' reading of a workbook.

## Model

| member | source | states |
|---|---|---|
| Webhooks.FindEvento | sync-ops-flow-main/supabase/functions/process-webhook-event/index.ts:29-37 | the event found has the requested id and is in the table; none is found iff no row has that id |
| Webhooks.Select | sync-ops-flow-main/supabase/functions/process-webhook-event/index.ts:39-44 | every selected webhook is a row of the table that is active and subscribed to the event type |
| Webhooks.SelectKeeps | sync-ops-flow-main/supabase/functions/process-webhook-event/index.ts:39-44 | every active webhook whose `eventos` contain the type is selected |
| Webhooks.SelectIdsUnique | sync-ops-flow-main/supabase/functions/process-webhook-event/index.ts:39-44 | the selection of a table with unique ids has unique ids |
| Webhooks.HeadersFor | sync-ops-flow-main/supabase/functions/process-webhook-event/index.ts:69-76 | the header names are Content-Type, the custom ones and, when the secret is non-empty, X-Webhook-Secret; the secret wins, custom headers win over the default Content-Type, which is application/json otherwise |
| Webhooks.SecretWins | sync-ops-flow-main/supabase/functions/process-webhook-event/index.ts:69-76 | a non-empty secret is always sent as X-Webhook-Secret; a custom Content-Type replaces the default |
| Webhooks.Entries | sync-ops-flow-main/supabase/functions/process-webhook-event/index.ts:114-120 | one result entry per selected webhook |
| Webhooks.Deliver | sync-ops-flow-main/supabase/functions/process-webhook-event/index.ts:66-112 | the fan-out keeps the table's length and every row's id |
| Webhooks.DeliverStep | sync-ops-flow-main/supabase/functions/process-webhook-event/index.ts:66-112 | one more attempt issues its own counter update, stamped with its own clock reading, on the table left by the earlier ones; a refused update leaves that table as it was |
| Webhooks.EntriesStep | sync-ops-flow-main/supabase/functions/process-webhook-event/index.ts:114-120 | one more attempt appends exactly its own entry to the results |
| Webhooks.WebhookDb.constructor | sync-ops-flow-main/supabase/functions/process-webhook-event/index.ts:29-44 | the two tables, with unique primary keys |
| Webhooks.WebhookDb.Handle | sync-ops-flow-main/supabase/functions/process-webhook-event/index.ts:16-136 | the reply and the new webhooks table are those of the `Dispatch` function, for every clock reading and every refusal of the counter updates; the events table is unchanged and the keys stay unique |
| Webhooks.WebhookDb.FanOut | sync-ops-flow-main/supabase/functions/process-webhook-event/index.ts:66-120 | the loop attempts every selected webhook in order, each followed by its own counter update, which the database may refuse; the table is `Deliver` of the old table and the results are `Entries`, whatever became of the updates |
| Webhooks.ResponseCounters | sync-ops-flow-main/supabase/functions/process-webhook-event/index.ts:84-98 | a response sets `ultimo_envio`, adds one to `total_envios`, and adds one to `total_erros` iff the status is outside 200-299 |
| Webhooks.ThrowCounters | sync-ops-flow-main/supabase/functions/process-webhook-event/index.ts:99-109 | a thrown delivery sets `ultimo_envio` and adds one to `total_erros` only |
| Webhooks.ErrorsBoundedOnlyWithoutThrows | sync-ops-flow-main/supabase/functions/process-webhook-event/index.ts:84-109 | `total_erros <= total_envios` survives every response, and a throw breaks it on a webhook whose every send so far failed |
| Webhooks.DeliverUntouched | sync-ops-flow-main/supabase/functions/process-webhook-event/index.ts:85-92 | a row that no attempt names is left unchanged |
| Webhooks.ReplyIgnoresUpdates | sync-ops-flow-main/supabase/functions/process-webhook-event/index.ts:85-120 | the reply is the same whatever the counter updates return, because their `{ error }` is never read |
| Webhooks.AllUpdatesRefused | sync-ops-flow-main/supabase/functions/process-webhook-event/index.ts:85-107 | if the database refuses every counter update, the fan-out leaves the table exactly as it was |
| Webhooks.DeliverTouched | sync-ops-flow-main/supabase/functions/process-webhook-event/index.ts:66-112 | the row attempted at position k gets exactly the patch of the k-th outcome, stamped with the k-th update's own clock reading, whatever the other attempts did (settle-all); if that update is refused, the row is left as it was |
| Webhooks.NotFoundContactsNobody | sync-ops-flow-main/supabase/functions/process-webhook-event/index.ts:29-37 | an unknown event id gives a 500 with "Evento não encontrado" and an unchanged table, whatever the network would do |
| Webhooks.NoneSubscribedChangesNothing | sync-ops-flow-main/supabase/functions/process-webhook-event/index.ts:50-55 | with no subscribed active webhook the reply is a 200 with the "Nenhum webhook configurado" message and the table is unchanged |
| Webhooks.DispatchProcessed | sync-ops-flow-main/supabase/functions/process-webhook-event/index.ts:57-125 | a found event with some subscribed webhook is answered with a 200, "Webhooks processados" and the entries, and the table is the fan-out's |
| Webhooks.DeliverSelected | sync-ops-flow-main/supabase/functions/process-webhook-event/index.ts:66-112 | over the selection, an unsubscribed row is untouched and a subscribed one is the selected webhook k, left as its own update made it, whose entry reports that attempt |
| Webhooks.ProcessedEffect | sync-ops-flow-main/supabase/functions/process-webhook-event/index.ts:57-125 | a processed event gives a 200 with one entry per selected webhook in order; an unsubscribed row is untouched; a subscribed row is patched from its own attempt with its own clock reading, or left as it was when its update is refused, and its entry reports the attempt either way |
| Frequencias.ClockField | backend/services/frequencia_service.py:23-24 | one `%H` or `%M` field parses iff it is one or two ASCII digits whose value is at most the field's maximum |
| Frequencias.ClockAt | backend/services/frequencia_service.py:23-24 | the text is an hour field, a colon and a minute field, with nothing after |
| Frequencias.ParseClock | backend/services/frequencia_service.py:23-24 | `strptime(s, "%H:%M")` succeeds iff the text is such a field pair; the value is 60*hour+minute and below 1440 |
| Frequencias.ParseClockText | backend/services/frequencia_service.py:23-24 | a zero-padded `HH:MM` text parses back to the time it shows |
| Frequencias.ParseClockRange | backend/services/frequencia_service.py:23-28 | "24:00", "12:60" and "25:00" fail to parse |
| Frequencias.CalcularHoras | backend/services/frequencia_service.py:17-28 | a result exists iff both times are given, non-empty and parse; it is clock-out minus clock-in, in (-1440, 1440) minutes |
| Frequencias.CalcularHorasOfText | backend/services/frequencia_service.py:17-28 | worked time between two `HH:MM` times is their difference, negative when clock-out is earlier (no wrap-around) |
| Frequencias.QueryForSelects | backend/services/frequencia_service.py:65-75 | the filter built matches a record iff each given (non-empty) employee id and date bound holds for it |
| Frequencias.ListRegistros | backend/services/frequencia_service.py:65-79 | every listed record is stored and selected; the list is sorted by `data` descending and holds the smaller of 5000 and the number of matches; under the limit it is a permutation of the matches, and above it the records left out are dated no later than any listed |
| Frequencias.ListRegistrosComplete | backend/services/frequencia_service.py:65-79 | under the 5000 limit, every selected record is listed |
| Frequencias.MesBounds | backend/services/frequencia_service.py:127-140 | the corrected month range: day 1 through the month's last day |
| Frequencias.MesBoundsGiven | backend/services/frequencia_service.py:136-140 | both month bounds are non-empty text, so the listing applies both |
| Frequencias.MesAsWrittenSelects | backend/services/frequencia_service.py:129-134 | as written, a date is in range iff it is in the month, or it is day 1 of the next month when the month is 1 to 11 |
| Frequencias.FebruaryFirstText | backend/services/frequencia_service.py:129 | the ISO text of 1 February 2025 is "2025-02-01" |
| Frequencias.MesAsWrittenLeaks | backend/services/frequencia_service.py:129-134 | as written, a record dated 2025-02-01 is returned for January 2025 |
| Frequencias.MesBoundsExact | backend/services/frequencia_service.py:127-134 | the corrected bounds select exactly the dates of the month |
| Frequencias.PairTaken | backend/services/frequencia_service.py:38-41 | some record has this employee and date |
| Frequencias.IndexOfId | backend/services/frequencia_service.py:81-86 | the first index holding the id, or -1 iff no record has it |
| Frequencias.ApplyUpdateFields | backend/services/frequencia_service.py:91-111 | an update keeps id, employee, date and name; it recomputes hours iff a time is supplied, from the supplied time merged with the stored one |
| Frequencias.UpdateMergesStoredTime | backend/services/frequencia_service.py:101-106 | a supplied clock-out alone is combined with the stored clock-in |
| Frequencias.FrequenciaService.constructor | backend/services/frequencia_service.py:12-15 | an empty store over the given employee service |
| Frequencias.FrequenciaService.GetById | backend/services/frequencia_service.py:81-86 | the record found has the id; none is found iff no record has it |
| Frequencias.FrequenciaService.GetAll | backend/services/frequencia_service.py:58-79 | every result is stored and selected; sorted by `data` descending; the smaller of 5000 and the number of matches, the latest-dated ones |
| Frequencias.ListMes | backend/services/frequencia_service.py:136-140 | the month listing: stored records of the employee within both bounds, latest first, the smaller of 5000 and the number of matches, the latest-dated ones, and all of them under the limit |
| Frequencias.FrequenciaService.GetByFuncionarioMesAsWritten | backend/services/frequencia_service.py:127-140 | as written: the employee's stored records from day 1 through day 1 of the next month, latest first, all of them under the 5000 limit |
| Frequencias.FrequenciaService.GetByFuncionarioMes | backend/services/frequencia_service.py:127-140 | corrected: the employee's stored records dated within the month, latest first, all of them under the 5000 limit, otherwise the latest-dated 5000 |
| Frequencias.FrequenciaService.AsWrittenReturnsNextMonthFirst | backend/services/frequencia_service.py:129-134 | an employee's record dated 2025-02-01 is returned for January 2025 as written and not by the corrected listing |
| Frequencias.FrequenciaService.Create | backend/services/frequencia_service.py:30-56 | an unknown employee, then an existing (employee, date) pair, is refused with its message and the store unchanged; otherwise the record with the employee's name and computed hours is appended; ids and pairs stay unique |
| Frequencias.FrequenciaService.Update | backend/services/frequencia_service.py:88-117 | no supplied field is a plain lookup; an unknown id or an update that changes nothing gives None and no change; otherwise exactly that record is replaced and returned |
| Frequencias.FrequenciaService.Delete | backend/services/frequencia_service.py:119-125 | the record with the id is removed and True returned; False and no change when there is none |
| Patterns.MatchRequired | sync-ops-flow-main/backend/models/funcionario.py:9 | an anchored pattern of required elements matches exactly the strings that fit it position by position |
| Patterns.MatchRequiredPrefix | sync-ops-flow-main/backend/models/funcionario.py:13 | a required prefix of a pattern consumes exactly its own length |
| Patterns.CpfPatternRequired | sync-ops-flow-main/backend/models/funcionario.py:9 | `^\d{3}\.\d{3}\.\d{3}-\d{2}$` is 14 required elements: digits, with '.' at 3 and 7 and '-' at 11 |
| Patterns.CpfIff | sync-ops-flow-main/backend/models/funcionario.py:9 | a CPF is accepted iff it is 14 characters with '.' at 3 and 7, '-' at 11 and ASCII digits elsewhere |
| Patterns.TelefoneIff | sync-ops-flow-main/backend/models/funcionario.py:13 | a telefone is accepted iff it is "(DD) " followed by four or five digits, '-' and four digits |
| Patterns.ShapeSplit | sync-ops-flow-main/backend/models/funcionario.py:13 | the telefone's fixed head and its two possible tails, stated as its two shapes |
| Patterns.HoraIff | backend/models/frequencia.py:10-11 | a time is accepted iff it is two digits, ':' and two digits |
| Patterns.HoraAcceptsOutOfRange | backend/models/frequencia.py:10-11 | "25:00" and "99:99" pass the time pattern |
| FrequenciaModel.ParseTipoDia | backend/models/frequencia.py:9 | a `tipo_dia` is accepted iff it is "util", "feriado" or "fim_de_semana", and it names the parsed kind |
| FrequenciaModel.TipoDiaRoundTrip | backend/models/frequencia.py:9 | every kind of day parses back from its name |
| FrequenciaModel.PatternHasNoRange | backend/models/frequencia.py:10-11 | a create request with times "25:00" and "99:99" passes validation |
| FrequenciaModel.HoraFieldShape | backend/models/frequencia.py:10-21 | an optional time field is valid iff absent or shaped HH:MM |
| FuncionarioModel.UpdateRulesAreCreateRules | sync-ops-flow-main/backend/models/funcionario.py:21-28 | an update supplying every field of a create request is valid iff the create request is |
| FuncionarioModel.EmptyUpdateOk | sync-ops-flow-main/backend/models/funcionario.py:21-28 | an update that supplies nothing passes validation |
| FuncionarioModel.CreateOkShape | sync-ops-flow-main/backend/models/funcionario.py:7-13 | a create request is valid iff nome has 3-200 characters, cargo and setor 2-100, the CPF has its shape, a given telefone has one of its two shapes, and a given e-mail passes the `EmailStr` check |
| Funcionarios.IndexOfId | sync-ops-flow-main/backend/services/funcionario_service.py:38-43 | the first index holding the id, or -1 iff no employee has it |
| Funcionarios.IndexOfCpf | sync-ops-flow-main/backend/services/funcionario_service.py:84-89 | the first index holding the CPF, or -1 iff no employee has it |
| Funcionarios.CpfInUseMessage | sync-ops-flow-main/backend/services/funcionario_service.py:60 | the refusal names the CPF |
| Funcionarios.List | sync-ops-flow-main/backend/services/funcionario_service.py:26-36 | every listed employee is stored and matches the `ativo` and non-empty `setor` filters; sorted by `nome` ascending; the smaller of 1000 and the number of matches; under the limit a permutation of the matches, above it the first 1000 by `nome` |
| Funcionarios.ListComplete | sync-ops-flow-main/backend/services/funcionario_service.py:26-36 | under the 1000 limit, every matching employee is listed |
| Funcionarios.FuncionarioService.constructor | sync-ops-flow-main/backend/services/funcionario_service.py:10-12 | an empty collection |
| Funcionarios.FuncionarioService.GetById | sync-ops-flow-main/backend/services/funcionario_service.py:38-43 | the employee found has the id; none is found iff no employee has it |
| Funcionarios.FuncionarioService.GetByCpf | sync-ops-flow-main/backend/services/funcionario_service.py:84-89 | the employee found has the CPF; none is found iff no employee has it |
| Funcionarios.FuncionarioService.GetAll | sync-ops-flow-main/backend/services/funcionario_service.py:26-36 | every result is stored and matches the filters; sorted by `nome`; the smaller of 1000 and the number of matches, the first ones by `nome` |
| Funcionarios.FuncionarioService.Create | sync-ops-flow-main/backend/services/funcionario_service.py:14-24 | a CPF on file is refused with its message and nothing changes; otherwise the new employee is appended and returned; ids and CPFs stay unique |
| Funcionarios.FuncionarioService.Update | sync-ops-flow-main/backend/services/funcionario_service.py:45-71 | no supplied field is a plain lookup; a CPF used by another employee is refused; an unknown id or an update that changes nothing gives None; otherwise exactly that employee is replaced and returned; CPFs stay unique |
| Funcionarios.FuncionarioService.Delete | sync-ops-flow-main/backend/services/funcionario_service.py:73-82 | an active employee is marked inactive, never removed, and True returned; False and no change for an unknown or already inactive one |
| Funcionarios.ApplyUpdateFields | sync-ops-flow-main/backend/services/funcionario_service.py:48-65 | an update sets exactly the supplied fields; id and admission date never change |
| Funcionarios.EmptyUpdateIsIdentity | sync-ops-flow-main/backend/services/funcionario_service.py:48-51 | an update that supplies nothing leaves the employee as it is |
| Funcionarios.DeleteIdempotent | sync-ops-flow-main/backend/services/funcionario_service.py:73-82 | after a soft delete the employee is still found at the same place and is inactive, so a second delete reports False |
| Relatorios.TotalHoras | backend/services/relatorio_service.py:44 | the sum of `total_horas` over the records, a missing value counting 0 |
| Relatorios.Ids | backend/services/relatorio_service.py:49-50 | one employee id per record |
| Relatorios.IdsAt | backend/services/relatorio_service.py:49-50 | the j-th id is the j-th record's employee |
| Relatorios.IdsSnoc | backend/services/relatorio_service.py:49-50 | one more record appends its employee id |
| Relatorios.IndexOfGroup | backend/services/relatorio_service.py:50 | the index of the employee's row, or -1 iff there is no row for it |
| Relatorios.NomeDeOther | backend/services/relatorio_service.py:51-57 | a record of another employee leaves a row's name unchanged |
| Relatorios.NomeDeFirst | backend/services/relatorio_service.py:51-57 | an employee's row takes the name of that employee's first record |
| Relatorios.NomeDeSeen | backend/services/relatorio_service.py:51-57 | later records of an employee keep the first record's name |
| Relatorios.RowIffKey | backend/services/relatorio_service.py:50 | an employee has a row iff its id is among the row keys |
| Relatorios.NoRecordOfPrefix | backend/services/relatorio_service.py:49-62 | an employee absent from a list is absent from its prefix and its last record |
| Relatorios.AbsentHasNoRecord | backend/services/relatorio_service.py:49-50 | an id missing from the first-seen ids has no record |
| Relatorios.FiguresSnoc | backend/services/relatorio_service.py:59-62 | one more record adds one to its employee's count, its hours to that employee's hours and the total, and one worked day iff both times are present |
| Relatorios.NewKeys | backend/services/relatorio_service.py:50-57 | a new employee's row goes to the end of the first-seen keys |
| Relatorios.NewSums | backend/services/relatorio_service.py:50-62 | opening a row keeps the row counts summing to the record count and the row hours to the total |
| Relatorios.NewSummaries | backend/services/relatorio_service.py:50-62 | a new row and the existing ones each summarise their employee's records |
| Relatorios.AddNewGroups | backend/services/relatorio_service.py:49-62 | a record of an employee without a row keeps the grouping invariant |
| Relatorios.ExistingKeys | backend/services/relatorio_service.py:59-62 | counting into an existing row keeps the first-seen keys |
| Relatorios.ExistingSums | backend/services/relatorio_service.py:59-62 | counting into an existing row keeps the sums |
| Relatorios.OnlyRow | backend/services/relatorio_service.py:48-58 | distinct rows belong to distinct employees |
| Relatorios.ExistingSummaries | backend/services/relatorio_service.py:59-62 | counting into an existing row keeps every row a summary of its employee |
| Relatorios.AddExistingGroups | backend/services/relatorio_service.py:49-62 | a record of an employee with a row keeps the grouping invariant |
| Relatorios.AddRegistroGroups | backend/services/relatorio_service.py:49-62 | one loop pass keeps the grouping invariant |
| Relatorios.HorasDeAbsent | backend/services/relatorio_service.py:60 | an employee without records has zero hours |
| Relatorios.DiasDeAbsent | backend/services/relatorio_service.py:61-62 | an employee without records has zero worked days |
| Relatorios.AgruparGroups | backend/services/relatorio_service.py:48-62 | `por_funcionario` has one row per distinct employee id in order of first occurrence; each row holds that employee's record count, hours, worked days and first name; the row counts sum to the record count and the row hours to the total hours |
| Relatorios.DiasAtMostRegistros | backend/services/relatorio_service.py:59-62 | an employee's worked days never exceed that employee's records |
| Relatorios.AgruparStep | backend/services/relatorio_service.py:49-62 | the grouping of one more record is one more loop pass over the grouping of the prefix |
| Relatorios.AgruparPorFuncionario | backend/services/relatorio_service.py:48-62 | the loop builds exactly the grouping function's rows |
| Relatorios.AgruparPorSetor | backend/services/relatorio_service.py:121-126 | the loop builds exactly the per-sector tally |
| Relatorios.SetorIds | backend/services/relatorio_service.py:39-40 | every id collected belongs to an employee of that sector |
| Relatorios.RegistrosDoRelatorio | backend/services/relatorio_service.py:31-41 | every covered record is stored and satisfies the period and employee filters; with a sector, each belongs to an employee of that sector |
| Relatorios.RelatorioFrequenciaFor | backend/services/relatorio_service.py:28-77 | the attendance report's rows satisfy the grouping invariant over the covered records; `total_registros` is their count, `total_horas` their hours, `total_funcionarios` the number of rows; the rows' counts and hours sum to the totals |
| Relatorios.FuncionariosDistintos | backend/services/relatorio_service.py:70-74 | `total_funcionarios` is the number of distinct employee ids among the covered records |
| Relatorios.FuncionariosDoGeral | backend/services/relatorio_service.py:87-92 | the general report counts stored active employees, only those of the sector when one is given |
| Relatorios.RelatorioGeralFor | backend/services/relatorio_service.py:79-119 | `total_ativos` is the number of those employees; `por_setor` tallies them by sector and its counts sum to `total_ativos`; the attendance figures are the count and hours of the period's records |
| Relatorios.GeralSetorIgnoredForHoras | backend/services/relatorio_service.py:82-94 | changing the sector never changes the general report's attendance figures |
| Relatorios.GerarRelatorioFor | backend/services/relatorio_service.py:18-26 | "frequencia" gives the attendance report, "geral" the general one, and any other kind the not-implemented error naming it |
| Relatorios.RelatorioService.constructor | backend/services/relatorio_service.py:13-16 | the service over the given attendance and employee stores |
| Relatorios.RelatorioService.GerarRelatorio | backend/services/relatorio_service.py:18-26 | the report is `GerarRelatorioFor` over the current stores |
| Relatorios.RelatorioService.GerarFrequencia | backend/services/relatorio_service.py:28-77 | the report is `RelatorioFrequenciaFor` over the current stores |
| Relatorios.RelatorioService.GerarGeral | backend/services/relatorio_service.py:79-119 | the report is `RelatorioGeralFor` over the current stores |
| Lists.TallyByTallies | backend/services/relatorio_service.py:121-126 | the per-key counts are the number of elements with that key, keys in first-seen order, totalling the element count |
| Lists.MapSeqMultiset | backend/routers/auth_router.py:284-288 | mapping a permutation of a sequence gives a permutation of its image |
| Lists.BumpTallies | backend/services/relatorio_service.py:125 | `setores.get(s, 0) + 1` on one more element keeps the tally invariant |
| Logs.DetalhesOrEmpty | backend/services/log_service.py:54 | given details are stored as they are; the stored details are empty iff none or empty ones were given |
| Logs.QueryForSelects | backend/services/log_service.py:95-114 | the query built matches a log iff every given non-empty filter holds and each given date bound holds on `data_hora` |
| Logs.Find | backend/services/log_service.py:116-117 | every log found is stored and matches; newest first; the smaller of `limite` and the number of matches; under the limit a permutation of the matches, above it no match left out is newer than a log found |
| Logs.FindComplete | backend/services/log_service.py:116-117 | under the limit, every matching log is found |
| Logs.LogService.constructor | backend/services/log_service.py:15-17 | an empty collection |
| Logs.LogService.CreateLog | backend/services/log_service.py:19-67 | a successful insert appends the log stamped with the given time and returns its id; a failing one returns None and stores nothing |
| Logs.LogService.GetLogs | backend/services/log_service.py:69-127 | on failure `[]`; otherwise every log returned is stored and selected by the filters, newest first, the smaller of `limite` and the number of matches, the newest of them, and all matches when they fit the limit |
| Logs.LogService.GetRecentLogs | backend/services/log_service.py:129-139 | on failure `[]`; otherwise the smaller of `limite` and the number of logs, newest first, no log left out newer than one returned; all logs when they fit |
| Logs.LogService.GetUserLogs | backend/services/log_service.py:141-152 | on failure `[]`; otherwise only that user's logs (every log when the email is empty), newest first, the smaller of `limite` and their number, the newest of them |
| Logs.LogService.UserLogsAreFiltered | backend/services/log_service.py:141-152 | when they fit the limit, a user's listing holds exactly that user's logs |
| Logs.LogService.GetLogsStats | backend/services/log_service.py:154-184 | on failure all zeros and empty counts; otherwise `total` is the number of logs and `por_tipo`, `por_status` count each kind and status; both sum to `total` (their keys are listed in first-seen order) |
| ExcelRouter.GetClientIp | backend/routers/excel_router.py:34-39 | a non-empty X-Forwarded-For gives its text before the first comma; otherwise the client host; otherwise "unknown" |
| ExcelRouter.ClientIpIsFirstHop | backend/routers/excel_router.py:36-38 | for a chain `a,rest` the address is `a`, untrimmed |
| ExcelRouter.BaseChar | backend/routers/excel_router.py:53-54 | an accented Latin-1 letter becomes its ASCII base letter and the no-break space a space; every other character is unchanged; the result is never an accented Latin-1 letter |
| ExcelRouter.Unaccent | backend/routers/excel_router.py:53-54 | decomposing and dropping combining marks never lengthens the text and leaves no accented Latin-1 letter and no combining mark |
| ExcelRouter.NormalizedColumnShape | backend/routers/excel_router.py:46-56 | a normalized column name has no space, no upper-case ASCII letter, no accented Latin-1 letter and no combining mark ("Remove acentos") |
| ExcelRouter.Normalized | backend/routers/excel_router.py:72 | every label's normalized form, position by position |
| ExcelRouter.FirstWithNorm | backend/routers/excel_router.py:79-82 | the first column from j whose normalized label equals the variation's, or -1 when none does (the `break`) |
| ExcelRouter.Renamed | backend/routers/excel_router.py:84 | `df.rename` keeps the number of columns |
| ExcelRouter.AnyPicks | backend/routers/excel_router.py:77-82 | some variation of the list picks the column |
| ExcelRouter.LastClaimer | backend/routers/excel_router.py:76-82 | the last standard name with a variation picking the column, none after it |
| ExcelRouter.WithVariationsSpec | backend/routers/excel_router.py:77-82 | after one standard's variations, a column is mapped iff it was or some variation picks it, and a picked column maps to that standard |
| ExcelRouter.RenameMapSpec | backend/routers/excel_router.py:75-82 | a column is in `rename_map` iff some standard claims it, and then it maps to the last claimer |
| ExcelRouter.MapColumns | backend/routers/excel_router.py:59-84 | the labels after `map_columns` are the renaming by the map the loops build |
| ExcelRouter.BuildRenameMap | backend/routers/excel_router.py:75-82 | the three nested loops build exactly `RenameMap` |
| ExcelRouter.MapColumnsRenames | backend/routers/excel_router.py:59-84 | a column keeps its label unless a standard claims it; a claimed one takes the last claimer's name |
| ExcelRouter.UnmatchedKeepsName | backend/routers/excel_router.py:79-84 | a column whose normalized label equals no normalized variation keeps its label |
| ExcelRouter.RenamedOnlyOnMatch | backend/routers/excel_router.py:79-84 | a renamed column takes a standard name one of whose variations normalizes as its label does |
| ExcelRouter.MissingColumns | backend/routers/excel_router.py:136 | the missing ones are exactly the required columns absent from the frame, in required order; none iff all are present |
| ExcelRouter.ValidateRequiredColumns | backend/routers/excel_router.py:125-141 | passes iff every required column is present; otherwise a 400 listing exactly the missing ones |
| ExcelRouter.CleanString | backend/routers/excel_router.py:155-159 | an empty value gives ""; anything else its text, stripped |
| ExcelRouter.CleanUnpadded | backend/routers/excel_router.py:158-159 | a text with no surrounding whitespace cleans to itself |
| ExcelRouter.CleanStringEmpty | backend/routers/excel_router.py:155-159 | a cleaned string is empty iff the value is empty or all whitespace |
| ExcelRouter.FirstWordAt | backend/routers/excel_router.py:179 | the word is the first whitespace-separated token, starting at i |
| ExcelRouter.FirstWordOr | backend/routers/excel_router.py:179-181 | the first token of a text with one; the text itself when it is all whitespace (`split()[0]` raises and the handler returns `str(value)`) |
| ExcelRouter.CleanDate | backend/routers/excel_router.py:155-181 | an empty value gives None; a datetime its date; any other value the first token of its text |
| ExcelRouter.CleanDateDropsTime | backend/routers/excel_router.py:179 | "date time" text keeps only the date |
| ExcelRouter.HorasTrabalhadas | backend/routers/excel_router.py:312-319 | in [0, 1440) minutes; 0 when a time fails to parse; clock-out minus clock-in, plus a day when clock-out is earlier |
| ExcelRouter.ImportWrapsServiceTime | backend/routers/excel_router.py:316 | where the attendance service reports a negative time, the import reports it plus a day |
| ExcelRouter.BuildFrequencia | backend/routers/excel_router.py:297-319 | hours are computed iff both times are non-empty, and lie in [0, 1440); an absent `tipo_dia` is "util"; an absent clock-in gives "" and no hours; `importado_em` is the given time |
| ExcelRouter.KeepFrequencia | backend/routers/excel_router.py:308-309 | a row is kept iff its cleaned employee id and date are non-empty |
| ExcelRouter.WhitespaceDateIsKept | backend/routers/excel_router.py:299-309 | a date cell of only whitespace passes the skip rule and is stored as that text |
| ExcelRouter.ProductTypeError | backend/routers/excel_router.py:514 | multiplying two values raises iff one of them is None |
| ExcelRouter.BuildAlimentacao | backend/routers/excel_router.py:504-517 | building a meal record raises iff the unit price cell or the quantity cell is empty (a None in `valor_unitario * quantidade`) |
| ExcelRouter.KeepAlimentacao | backend/routers/excel_router.py:519-520 | a meal row is kept iff its employee id and date are non-empty |
| ExcelRouter.BuildMaterial | backend/routers/excel_router.py:657-670 | building a material record raises iff the quantity cell or the unit price cell is empty (a None in `quantidade * valor_unitario`) |
| ExcelRouter.ProcessFrameCounts | backend/routers/excel_router.py:285-330 | a frame is imported iff its mapped columns hold every required one, else a 400; `criados + erros` is at most the row count; each error is a failing row's line and message |
| ExcelRouter.ImportSheet | backend/routers/excel_router.py:263-330 | a bad extension raises the 400; an unreadable file gives its message; otherwise the frame's outcome |
| ExcelRouter.Summary | backend/routers/excel_router.py:352-358 | `criados`, `erros` and `total_processados` are the full counts; `detalhes_erros` is the first at most 10 errors, all of them when there are at most 10 |
| ExcelRouter.ImportAlimentacao | backend/routers/excel_router.py:459-542 | the meal endpoint's response and stored documents are those of the sheet outcome; a read failure is a 500 |
| ExcelRouter.ImportMateriais | backend/routers/excel_router.py:612-695 | the material endpoint's response and stored documents are those of the sheet outcome |
| ExcelRouter.WithDados | backend/routers/excel_router.py:326-330 | each attendance error entry carries its line, the row at that line and the message |
| ExcelRouter.ImportFrequencia | backend/routers/excel_router.py:243-378 | a raised 400 logs nothing; an unreadable file logs an error entry and gives a 500; an import logs a success entry with the counts and returns the summary, errors carrying their rows |
| ExcelRouter.ExportColumns | backend/routers/excel_router.py:418-420 | the exported columns are exactly those of the order that some found document has |
| ExcelRouter.SheetOf | backend/routers/excel_router.py:412-431 | the headings are the present columns' Portuguese names and there is one row per document |
| ExcelRouter.ExportSheet | backend/routers/excel_router.py:394-434 | a 404 iff no stored document is in range; otherwise the sheet of the documents found |
| ImportRows.RunStep | backend/routers/excel_router.py:294-330 | the lists after one more row are the earlier lists with that row's outcome recorded |
| ImportRows.ImportLoop | backend/routers/excel_router.py:294-330 | the loop fills exactly the lists `Run` describes |
| ImportRows.RunCounts | backend/routers/excel_router.py:294-330 | `created` and `errors` together count the rows less the skipped ones; one stored record per created id |
| ImportRows.NoSkipsCountsAll | sync-ops-flow-main/backend/routers/excel_importacao.py:59-84 | with no skipped row, every row is in `created` or `errors` |
| ImportRows.LinesBelow | backend/routers/excel_router.py:327 | every error line is below the bound |
| ImportRows.ErrorAtPrefix | backend/routers/excel_router.py:325-330 | an error entry of a prefix of the rows is one of all the rows |
| ImportRows.RunErrors | backend/routers/excel_router.py:325-330 | each error names a failing row by index + 2, with that row's message, lines strictly increasing |
| ImportRows.RunErrorComplete | backend/routers/excel_router.py:325-330 | every failing row has its error entry |
| ImportRows.RunCreated | backend/routers/excel_router.py:321-323 | each stored record and id come from a kept row inserted under that id |
| ImportRows.RunCreatedComplete | backend/routers/excel_router.py:321-323 | every kept and inserted row has its record and id in the lists |
| Sheets.IndexOf | backend/routers/excel_router.py:298 | the first position of the label, or -1 iff absent |
| Sheets.Get | backend/routers/excel_router.py:300-303 | `row.get(col, default)`: the default when the label is absent, else the cell under its first occurrence |
| Sheets.Field | backend/routers/excel_router.py:412 | a document's field, absent iff it has no such field |
| Sheets.FindForExport | backend/routers/excel_router.py:396-406 | every document found is stored and in range; sorted by `data` descending; the count is the smaller of the matches and 10000, and no document in range left out is dated later than one found |
| Sheets.ExportTakesSorted | backend/routers/excel_router.py:405-406 | the export is the first 10000 of the sorted matches |
| Sheets.TakeSortedFilter | backend/routers/excel_router.py:405-406 | the first n of a sorted filtered list pass the filter, stay sorted, and are all the matches when they fit |
| Sheets.FindForExportEmpty | backend/routers/excel_router.py:408-409 | the export is empty iff no stored document is in range |
| Sheets.DocRows | backend/routers/excel_router.py:412 | one row per document, one cell per label, each the document's field or the missing value |
| ExcelImportacao.FirstMissing | sync-ops-flow-main/backend/routers/excel_importacao.py:47-54 | the `for col in required_columns` loop finds nothing iff every required column is present, and otherwise the first absent one in required order |
| ExcelImportacao.FirstMissingIsFirstListed | sync-ops-flow-main/backend/routers/excel_importacao.py:47-54 | the single column reported is the first of all the missing ones |
| ExcelImportacao.Rewrapped | sync-ops-flow-main/backend/routers/excel_importacao.py:88-90 | an exception escaping the `try`, an `HTTPException` included, becomes a 500 whose detail is "status: detail" |
| ExcelImportacao.BuildFrequencia | sync-ops-flow-main/backend/routers/excel_importacao.py:61-68 | an attendance row never fails; an absent `tipo_dia` column gives "util", an absent `hora_entrada` gives "", a missing date is stored as "nan" |
| ExcelImportacao.BuildAlimentacao | sync-ops-flow-main/backend/routers/excel_importacao.py:173-182 | a meal row fails iff `float(valor_unitario)` or `int(quantidade)` raises, with the first raised message |
| ExcelImportacao.BuildMaterial | sync-ops-flow-main/backend/routers/excel_importacao.py:284-296 | a material row fails iff `float(quantidade)` or `float(valor_unitario)` raises, with the first raised message |
| ExcelImportacao.UploadOutcomeCounts | sync-ops-flow-main/backend/routers/excel_importacao.py:35-90 | every refusal is a 500; a processed upload has every required column, counts every row as created or failed (`criados + erros == total_processados`), each error at its row's line, lines increasing |
| ExcelImportacao.UploadNamesFirstMissing | sync-ops-flow-main/backend/routers/excel_importacao.py:48-90 | a frame missing columns is refused, as a 500, naming the first missing column in required order |
| ExcelImportacao.ImportUpload | sync-ops-flow-main/backend/routers/excel_importacao.py:35-90 | the response and stored documents are the upload outcome's: its error, or the counts and every error entry |
| ExcelImportacao.ImportFrequencia | sync-ops-flow-main/backend/routers/excel_importacao.py:24-90 | the attendance upload with `funcionario_id` and `data` required |
| ExcelImportacao.ImportAlimentacao | sync-ops-flow-main/backend/routers/excel_importacao.py:138-203 | the meal upload with `funcionario_id`, `data` and `tipo_refeicao` required |
| ExcelImportacao.ImportMateriais | sync-ops-flow-main/backend/routers/excel_importacao.py:249-317 | the material upload with `data`, `descricao` and `local_uso` required |
| ExcelImportacao.Rewrapped400 | sync-ops-flow-main/backend/routers/excel_importacao.py:36-90 | a refused extension or missing column reaches the client as a 500 reading "400: " and the original detail |
| ExcelImportacao.AllFieldNamesSpec | sync-ops-flow-main/backend/routers/excel_importacao.py:115 | a label is among the frame's field names iff some document has that field |
| ExcelImportacao.ExportLabels | sync-ops-flow-main/backend/routers/excel_importacao.py:115-117 | the exported columns have no repeats and are exactly the fields some found document has, `_id` excepted |
| Lists.FilterNoDuplicates | sync-ops-flow-main/backend/routers/excel_importacao.py:117 | a list without repeats, filtered (columns dropped, ids removed from a selection), still has none |
| ExcelImportacao.ExportAll | sync-ops-flow-main/backend/routers/excel_importacao.py:102-122 | the sheet holds the documents in range newest first, one row each, under their field names; no document in range gives an empty sheet, not an error |
| ExcelService.MaxTextLengthSpec | backend/services/excel_service.py:53-60 | the width loop's maximum bounds every text cell of the column and is 0 or the length of one; other values raise inside the `try` and count nothing |
| ExcelService.Width | backend/services/excel_service.py:61 | `min(max_length + 2, 50)` lies between 2 and 50 |
| ExcelService.ColumnWidths | backend/services/excel_service.py:52-62 | the nested loops give one width per column, each the capped width of that column, header included |
| ExcelService.WorksheetWidths | backend/services/excel_service.py:51-62 | a sheet with columns gets each column's capped width; a sheet without any still has column A, whose one empty cell gives it width 2 |
| ExcelService.WidthFitsText | backend/services/excel_service.py:52-62 | each column is at least two wider than its header and than any text cell in it, unless that would pass the cap of 50 |
| ExcelService.AtivoText | backend/services/excel_service.py:37 | `Ativo` is "Sim" iff the employee has no `ativo` field or a truthy one, else "Não" |
| ExcelService.FuncionarioRow | backend/services/excel_service.py:28-38 | one cell per exported heading |
| ExcelService.FuncionarioRowCells | backend/services/excel_service.py:29-37 | each cell is the employee's field as stored, '' when absent; the last one is the `Ativo` text |
| ExcelService.ExportFuncionarios | backend/services/excel_service.py:24-62 | with employees, the sheet has the nine headings and one row per employee, in order, and the widths of its columns; with none, it has no header row and no rows, and column A gets width 2 |
| ExcelService.DataAdmissao | backend/services/excel_service.py:105-107 | a text is kept as it is and a timestamp gives its date; anything else raises, having no `strftime` |
| ExcelService.OptionalOf | backend/services/excel_service.py:108-109 | the phone or email is None iff the cell is missing |
| ExcelService.FuncionarioFrom | backend/services/excel_service.py:101-111 | name, CPF, position and sector are the stripped texts; `ativo` holds iff the cell is exactly "Sim" |
| ExcelService.FuncionarioOf | backend/services/excel_service.py:101-111 | a kept row converts iff its admission date is usable; name and CPF are stripped; a missing `Ativo` column means active |
| ExcelService.ImportStep | backend/services/excel_service.py:96-113 | one row: the loop stops iff it had stopped or this kept row raises; otherwise a skipped row adds nothing and a kept one adds what it becomes |
| ExcelService.ImportStopsAtError | backend/services/excel_service.py:96-120 | the first row that raises ends the import with its error; later rows change nothing |
| ExcelService.ImportListKeeps | backend/services/excel_service.py:96-116 | a successful import holds exactly what the rows not skipped become, one each, in row order |
| ExcelService.ImportListFails | backend/services/excel_service.py:96-120 | the row loop fails iff some row that is not skipped raises |
| ExcelService.ImportFuncionarios | backend/services/excel_service.py:83-120 | the read, the column check and the row loop give exactly the import's outcome |
| ExcelService.ImportRows | backend/services/excel_service.py:95-116 | the row loop, with its `continue` and the exception that leaves it, computes `ImportList` |
| ExcelService.ImportOutcomeSpec | backend/services/excel_service.py:83-120 | the import succeeds iff the file reads, every required column is present and no kept row raises; it then returns exactly what the kept rows become |
| ExcelService.ImportNamesMissing | backend/services/excel_service.py:88-120 | a frame missing required columns fails naming all of them, joined by ", ", behind the import's prefix |
| ExcelService.ReadBackRow | backend/services/excel_service.py:47-85 | a written row read back: each empty text comes back as the missing value, all else unchanged |
| ExcelService.GetDistinct | backend/services/excel_service.py:98-110 | under distinct headings each column is read from its own position |
| ExcelService.HeaderDistinct | backend/services/excel_service.py:29-37 | the nine exported headings are distinct |
| ExcelService.TextPlain | backend/services/excel_service.py:102-105 | stripping a text with nothing to strip gives it back |
| ExcelService.OptionalPlain | backend/services/excel_service.py:108-109 | an empty phone or email written out comes back as None, any other plain one as itself |
| ExcelService.FuncionarioFromPlain | backend/services/excel_service.py:101-111 | plain texts come back from their cells unchanged, empty optional ones as None |
| ExcelService.FuncionarioOfLayout | backend/services/excel_service.py:98-111 | under distinct headings laid out as exported, the import takes each field from its own column |
| ExcelService.FuncionarioOfHeader | backend/services/excel_service.py:28-38 | the exported headings are such a layout |
| ExcelService.ImportReadsExportedRow | backend/services/excel_service.py:28-38 | an exported row read back imports as the employee with the same texts, empty phone or email as None, and `ativo` iff the cell is "Sim" |
| ExcelService.EmptyExportDoesNotImport | backend/services/excel_service.py:88-92 | the sheet exported from no employees has no columns, so importing it fails naming every required column |
| ExcelService.ExportImportRoundTrip | backend/services/excel_service.py:14-120 | exporting an employee and importing the sheet gives back its fields, empty phone or email as None, and `ativo` as the stored flag's truthiness |
| ExcelService.FrequenciaRow | backend/services/excel_service.py:137-145 | one cell per attendance heading; the hours default to 0 and the note is taken from `observacoes` |
| ExcelService.ExportFrequencia | backend/services/excel_service.py:133-169 | with records, the sheet has the seven headings and one row per record, in order, and the widths of its columns; with none, it has no header row and no rows, and column A gets width 2 |
| ExcelService.NoteUnderObservacaoIsLost | backend/services/excel_service.py:144 | a record whose note is stored as `observacao`, as the attendance service stores it, exports an empty Observações cell |
| AuthRouter.ExpiresIn | backend/routers/auth_router.py:185 | a login's `expires_in` is 30 days in seconds, 2592000 |
| AuthRouter.IdOf | backend/routers/auth_router.py:314 | the id an ObjectId text denotes is a stored id, in lower case |
| AuthRouter.IdOfStored | backend/routers/auth_router.py:314-339 | every stored id is a valid path parameter and denotes itself |
| AuthRouter.IndexOfId | backend/routers/auth_router.py:314-319 | the position of the document with the id, or -1 iff none has it |
| AuthRouter.ReplacePreservesValid | backend/routers/auth_router.py:332-399 | rewriting one document, its id and email kept, keeps ids unique, emails unique and ids well formed |
| AuthRouter.RegisterOutcome | backend/routers/auth_router.py:47-62 | registration is refused with "Email já cadastrado" iff the email is on file, and then nothing changes |
| AuthRouter.RegisterStoresHash | backend/routers/auth_router.py:55-81 | a registration appends exactly one document holding the id, the email, the profile name, the active flag and the hash of the password, never the password itself, and answers with its public view |
| AuthRouter.RegisterPreservesValid | backend/routers/auth_router.py:47-62 | registering under a fresh ObjectId keeps ids and emails unique |
| AuthRouter.Login | backend/routers/auth_router.py:113-186 | an unknown email and a wrong password both give the same 401; a right password for an inactive user gives the 403; otherwise the token signed for the email, type "bearer", and the 30-day lifetime |
| AuthRouter.LoginSucceedsIff | backend/routers/auth_router.py:113-186 | with unique emails, login succeeds iff some stored user with that email is active and the password matches its hash |
| AuthRouter.LoginHidesUnknownEmail | backend/routers/auth_router.py:117-146 | an unknown email and a known one with a wrong password get identical refusals |
| AuthRouter.ChangePasswordOutcome | backend/routers/auth_router.py:217-268 | the change succeeds iff the user is found and the current password matches; a mismatch is the 400 "Senha atual incorreta"; a refusal changes nothing |
| AuthRouter.ChangePasswordThenLogin | backend/routers/auth_router.py:237-260 | a successful change rewrites only the user's hash and timestamp, and afterwards the new password logs in |
| AuthRouter.ListUsers | backend/routers/auth_router.py:279-288 | exactly min(number of users, 1000) entries, newest `criado_em` first; with at most 1000 users, a permutation of their public views; above the limit, no stored user left out was created later than one listed |
| AuthRouter.ListUsersOrder | backend/routers/auth_router.py:280-281 | the sorted and truncated page has min(number of users, 1000) entries, newest first |
| AuthRouter.ListUsersContents | backend/routers/auth_router.py:279-288 | the page is every user's public view when there are at most 1000, and otherwise leaves out none newer than one listed |
| AuthRouter.ListUsersFromStore | backend/routers/auth_router.py:284-288 | each listed entry is the public view, without hash, of a stored user |
| AuthRouter.PatchedChangesOnlySupplied | backend/routers/auth_router.py:321-335 | an update changes only the supplied fields, stores a supplied password as its hash, refreshes `atualizado_em`, and keeps id, email and `criado_em` |
| AuthRouter.UpdateOutcome | backend/routers/auth_router.py:310-362 | an id that is not an ObjectId text is a 500; a 404 iff no user has the id; a refusal changes nothing |
| AuthRouter.UpdateTouchesOne | backend/routers/auth_router.py:314-354 | an update keeps the store valid, rewrites exactly the addressed document with the patch, and answers with its new public view |
| AuthRouter.DeleteOutcome | backend/routers/auth_router.py:377-420 | an id that is not an ObjectId text is a 500; a 404 iff no user has the id; a refusal changes nothing |
| AuthRouter.NoSelfDeactivation | backend/routers/auth_router.py:388-393 | the caller's own document is never changed, and addressing it is refused with the 400 |
| AuthRouter.DeleteIsSoft | backend/routers/auth_router.py:395-412 | a deactivation keeps every document, sets one other user's `ativo` false and its timestamp, and names that user's email |
| AuthRouter.UsuarioStore.constructor | backend/routers/auth_router.py:34-420 | the collection starts empty and valid |
| AuthRouter.UsuarioStore.Register | backend/routers/auth_router.py:34-99 | the store after `register` is the registration outcome of the old one, and stays valid |
| AuthRouter.UsuarioStore.ChangePassword | backend/routers/auth_router.py:205-268 | the store after `change_password` is its outcome on the old one, and stays valid |
| AuthRouter.UsuarioStore.UpdateUser | backend/routers/auth_router.py:297-362 | the store after `update_user` is its outcome on the old one, and stays valid |
| AuthRouter.UsuarioStore.DeleteUser | backend/routers/auth_router.py:365-420 | the store after `delete_user` is its outcome on the old one, and stays valid |
| AuthDeps.GetCurrentUser | backend/auth/dependencies.py:33-67 | a token that does not decode, one without `sub`, and one naming no stored email are each refused with their own 401 carrying the Bearer challenge; otherwise the stored user with that email, without its hash |
| AuthDeps.GetCurrentActiveUser | backend/auth/dependencies.py:85-91 | passes the user unchanged iff its `ativo` is not false, a missing one counting as active; otherwise the 403 "Usuário inativo" |
| AuthDeps.RequireAdmin | backend/auth/dependencies.py:109-115 | passes the user unchanged iff its profile is "admin"; otherwise the 403 for administrators only |
| AuthDeps.AdminChain | backend/auth/dependencies.py:16-115 | whoever passes `require_admin` is a stored, active administrator named by the token's `sub`; a bad token gets its 401 before any 403; every refusal is a 401 or a 403 |
| AuthDeps.AdminRefusals | backend/auth/dependencies.py:85-115 | an inactive user gets "Usuário inativo" and an active non-administrator the administrator refusal |
| AuthDeps.GetOptionalUser | backend/auth/dependencies.py:133-152 | no header, or one not starting with "Bearer ", gives None; a user returned is a stored user without its hash |
| AuthDeps.OptionalAgreesWithCurrent | backend/auth/dependencies.py:16-67 | for "Bearer " and a token without another "Bearer " and without an empty `sub`, the lenient dependency finds exactly the user the strict one accepts, and None where it refuses |
| AuthDeps.OptionalStripsRepeatedScheme | backend/auth/dependencies.py:138 | `replace` removes every "Bearer ", so a doubled scheme still reaches the inner token |
| UsuarioModel.ParsePerfil | backend/models/usuario.py:13-16 | a profile is accepted iff it is "admin" or "operacional", and then names itself |
| UsuarioModel.PerfilRoundTrip | backend/models/usuario.py:13-16 | each profile's name parses back to it |
| UsuarioModel.AnyChar | backend/models/usuario.py:31-32 | `any(p(c) for c in s)` holds iff some character satisfies p |
| UsuarioModel.ValidatePassword | backend/models/usuario.py:24-37 | a password passes iff it has at least 8 characters, a letter and a digit, and comes back unchanged; a short one gets the length message, a long weak one the letters-and-digits message |
| UsuarioModel.ValidateOptionalPassword | backend/models/usuario.py:47-62 | an absent update password passes unchecked |
| UsuarioModel.SamePasswordRule | backend/models/usuario.py:24-37 | a supplied password meets the same rule, with the same messages, in create, update and change-password requests |
| UsuarioModel.PasswordExamples | backend/models/usuario.py:27-37 | eight letters and eight digits are refused as weak, six characters as short, "senha123" passes |
| UsuarioModel.ParseCreate | backend/models/usuario.py:9-37 | a create request is valid iff the name has 3 to 100 characters, the profile is absent or one of the two, and the password is strong; an absent profile means operacional and an absent `ativo` true |
| UsuarioModel.UpdateRulesAreCreateRules | backend/models/usuario.py:40-62 | an update is valid iff each supplied name and password obeys its create rule; the empty update is valid |
| UsuarioModel.SemSenha | backend/models/usuario.py:64-67 | a user without `senha_hash` keeps every other field |
| UsuarioModel.Response | backend/models/usuario.py:65-68 | the public view keeps id, email, name, profile and `criado_em`, and renders a missing `ativo` as true |
| UsuarioModel.IndexOfEmail | backend/routers/auth_router.py:48 | the first position holding the email, or -1 iff none does |
| UsuarioModel.IndexOfUniqueEmail | backend/routers/auth_router.py:115 | with unique emails the lookup finds the one user with that email |
| FuncionariosTable.FilteredIsOrderedSubset | frontend/src/components/funcionarios/FuncionariosTable.tsx:31-39 | the table shows exactly the employees whose lowercased name contains the lowercased term or whose CPF contains the raw term, and whose sector matches an active sector filter, in fetched order |
| FuncionariosTable.EmptyFiltersShowAll | frontend/src/components/funcionarios/FuncionariosTable.tsx:31-75 | with the filters cleared every employee is shown, in order |
| FuncionariosTable.SetoresSpec | frontend/src/components/funcionarios/FuncionariosTable.tsx:41-44 | the sector options hold each employee's sector exactly once, nothing else, in first-seen order |
| FuncionariosTable.SelectAll | frontend/src/components/funcionarios/FuncionariosTable.tsx:46-52 | checking the header selects the ids of the shown rows, in order; unchecking selects nothing |
| FuncionariosTable.SelectOneSpec | frontend/src/components/funcionarios/FuncionariosTable.tsx:54-60 | checking a row appends its id; unchecking removes every occurrence of it and keeps the other ids in order |
| FuncionariosTable.AfterBatch | frontend/src/components/funcionarios/FuncionariosTable.tsx:62-70 | both batch actions leave the selection empty |
| FuncionariosTable.HeaderCountMisleads | frontend/src/components/funcionarios/FuncionariosTable.tsx:137 | the counting header shows all selected after switching the sector filter, though no shown row is selected |
| FuncionariosTable.SelectAllChecksHeader | frontend/src/components/funcionarios/FuncionariosTable.tsx:46-52 | select-all checks the intended header whenever a row is shown; deselect-all clears it |
| FuncionariosTable.HeaderAgreesWithoutStaleIds | frontend/src/components/funcionarios/FuncionariosTable.tsx:137 | with no repeated ids and only shown ids selected, counting agrees with "every shown row is selected" |
| FuncionariosTable.SameElementsSameLength | frontend/src/components/funcionarios/FuncionariosTable.tsx:137 | two duplicate-free id lists with the same elements have the same length |
| FuncionariosTable.SubsetSameLengthCovers | frontend/src/components/funcionarios/FuncionariosTable.tsx:137 | a duplicate-free selection as long as the duplicate-free shown ids and inside them holds all of them |
| FuncionariosTable.DistinctCardinality | frontend/src/components/funcionarios/FuncionariosTable.tsx:137 | a duplicate-free list has as many elements as its set |
| WebhookDialog.Reset | sync-ops-flow-main/src/components/webhooks/WebhookDialog.tsx:78-84 | after a save the form is back to the new-webhook state: empty inputs, active, no events |
| WebhookDialog.ToggleFlips | sync-ops-flow-main/src/components/webhooks/WebhookDialog.tsx:86-92 | ticking an event selects it iff it was not selected, and leaves every other event as it was |
| WebhookDialog.ToggleNoDuplicates | sync-ops-flow-main/src/components/webhooks/WebhookDialog.tsx:86-92 | toggling never repeats an event in the selection |
| WebhookDialog.Submit | sync-ops-flow-main/src/components/webhooks/WebhookDialog.tsx:42-76 | nothing is sent iff no event is selected; an edited webhook is updated under its id, otherwise one is created; the data carries the form's fields, an empty secret left out, and empty headers |
| WebhookDialog.Save | sync-ops-flow-main/src/components/webhooks/WebhookDialog.tsx:97-123 | the browser's form validation runs first: anything sent has a non-empty name, a non-empty URL that passes the URL check, and at least one event; nothing is sent iff the form is invalid or no event is ticked |
| WebhookDialog.IgnoredOnlyWhenDisabled | sync-ops-flow-main/src/components/webhooks/WebhookDialog.tsx:45-47 | whenever the button is enabled, submitting sends something |
| WebhookDialog.ClearedSecretIsKept | sync-ops-flow-main/src/components/webhooks/WebhookDialog.tsx:33-60 | emptying the secret of an existing webhook and saving leaves the stored secret in place |
| WebhookDialog.CreatedRowSubscriptions | sync-ops-flow-main/src/components/webhooks/WebhookDialog.tsx:49-69 | a webhook created from the dialog is picked by the dispatcher for an event type iff it is active and the type was ticked |
| Configuracoes.InitialIdsUnique | src/pages/Configuracoes.tsx:10-14 | the three starting cargos have distinct ids |
| Configuracoes.MaxId | src/pages/Configuracoes.tsx:25 | `Math.max` of the ids bounds every id and is one of them, or `-Infinity` for none |
| Configuracoes.AdicionarCargoAsWritten | src/pages/Configuracoes.tsx:19-32 | a blank name gives the error toast and changes nothing; otherwise the untrimmed name is appended with id max + 1 and the default lunch break, and the input is cleared |
| Configuracoes.AsWrittenRepeatsIdsAfterEmptying | src/pages/Configuracoes.tsx:25-35 | after every cargo is removed, two additions share the id `-Infinity`, and removing one removes both |
| Configuracoes.NextId | src/pages/Configuracoes.tsx:25 | the corrected id is a number no cargo has |
| Configuracoes.NextIdAgreesWhenNonEmpty | src/pages/Configuracoes.tsx:25 | while some cargo has a numeric id, the corrected id is the written `max + 1` |
| Configuracoes.AdicionarCargo | src/pages/Configuracoes.tsx:19-32 | a blank name changes nothing; otherwise exactly one cargo is appended, with the name, the default break and an id no other cargo has |
| Configuracoes.AdicionarKeepsIdsUnique | src/pages/Configuracoes.tsx:19-32 | adding keeps the ids distinct |
| Configuracoes.RemoverSpec | src/pages/Configuracoes.tsx:34-37 | removal keeps exactly the cargos with another id, in order |
| Configuracoes.RemoverKeepsIdsUnique | src/pages/Configuracoes.tsx:34-37 | removal keeps the ids distinct |
| Configuracoes.AtualizarTempoAlmoco | src/pages/Configuracoes.tsx:39-41 | every cargo with the id gets the new break and every other is unchanged |
| Configuracoes.AtualizarChangesOne | src/pages/Configuracoes.tsx:39-41 | with distinct ids one cargo's break changes and nothing else, ids staying distinct |
| FuncionarioForm.FotoChange | src/components/funcionarios/FuncionarioFormDialog.tsx:74-87 | no file keeps the photo; a file over 5 MiB gets "Foto deve ter no máximo 5MB" and a non-image "Arquivo deve ser uma imagem", in that order, keeping the current photo; an image within the limit replaces it; there is an error toast iff the file is refused |
| FuncionarioForm.FotoStaysAcceptable | src/components/funcionarios/FuncionarioFormDialog.tsx:74-87 | the photo held is always an image within 5 MiB |
| FuncionarioForm.DocumentosChange | src/components/funcionarios/FuncionarioFormDialog.tsx:89-99 | the old list is kept as a prefix, everything appended is within 10 MiB, and there are at most as many toasts as files |
| FuncionarioForm.DocumentosChangeSpec | src/components/funcionarios/FuncionarioFormDialog.tsx:89-99 | the appended files are a subsequence of the chosen ones, all of those within 10 MiB and as many as there are; the toasts are `<name> excede 10MB` for each chosen file over 10 MiB, in order, one each |
| FuncionarioForm.DocumentosChangeDetermined | src/components/funcionarios/FuncionarioFormDialog.tsx:89-99 | any list of fitting files that is a subsequence of the chosen ones and as long as the fitting ones is exactly what the picker appends |
| FuncionarioForm.FilterPartition | src/components/funcionarios/FuncionarioFormDialog.tsx:91-97 | each chosen file is either kept or refused |
| FuncionarioForm.RemoveDocumento | src/components/funcionarios/FuncionarioFormDialog.tsx:101-103 | removal drops exactly the file at the index and keeps the others in order; an index outside the list changes nothing |
| FuncionarioForm.SchemaErrors | src/components/funcionarios/FuncionarioFormDialog.tsx:33-41 | the form is valid iff the name has at least 3 characters, the CPF fits 000.000.000-00, cargo and setor have at least 2, the e-mail is absent, empty or an address, and the admission date is non-empty; each message names one of these fields |
| FuncionarioForm.ValidCpfShape | src/components/funcionarios/FuncionarioFormDialog.tsx:35 | a valid form's CPF has digits with '.' at positions 3 and 7 and '-' at 11 |
| FuncionarioForm.OrNull | src/components/funcionarios/FuncionarioFormDialog.tsx:116-117 | `value \|\| null` is null iff the text is absent or empty, and otherwise the text |
| FuncionarioForm.InsertRecord | src/components/funcionarios/FuncionarioFormDialog.tsx:111-120 | the row inserted carries the fields as entered, an empty e-mail or phone as null, and `ativo` true |
| FuncionarioForm.FotoPathSpec | src/components/funcionarios/FuncionarioFormDialog.tsx:128 | the photo's extension is the text after the name's last dot, and the whole name when it has none |
| FuncionarioForm.AfterLastAbsent | src/components/funcionarios/FuncionarioFormDialog.tsx:128 | `split(".").pop()` of a name without a dot is the name itself |
| FuncionarioForm.DocumentoUploads | src/components/funcionarios/FuncionarioFormDialog.tsx:137-146 | one upload per document, in order |
| FuncionarioForm.DocumentoUploadsStep | src/components/funcionarios/FuncionarioFormDialog.tsx:137-146 | the uploads for one more document are the earlier ones followed by that document's own upload |
| FuncionarioForm.OnSubmit | src/components/funcionarios/FuncionarioFormDialog.tsx:105-160 | the insert's row is always the form's record; a refused insert uploads nothing and shows the error toast; otherwise the photo is uploaded first and then each document in order, and the success toast is shown whatever the uploads return |
| FuncionarioForm.DocumentoPathsSpec | src/components/funcionarios/FuncionarioFormDialog.tsx:138-142 | each document goes to `funcionarios/{id}/documentos/{name}`, in the order chosen |
| FuncionarioForm.FotoUploadFirst | src/components/funcionarios/FuncionarioFormDialog.tsx:127-134 | with a photo, there is one upload more than documents, and the first is the photo at `funcionarios/{id}/foto.{ext}` |
| DashboardStats.ComputeStats | src/hooks/use-dashboard-stats.ts:23-31 | `totalFuncionarios` and `presencasRegistradas` are the two counts; the active count is at most the total; the month's hours are the sum with missing hours as 0; the average is '0' iff there are no records, otherwise the sum over the count |
| DashboardStats.IsLoading | src/hooks/use-dashboard-stats.ts:33 | the hook never reports loading |
| DashboardStats.AtivosCountsActive | src/hooks/use-dashboard-stats.ts:25 | whatever the records, `funcionariosAtivos` counts exactly the active employees, the number of `true` flags among them, and each of them is in the filter |
| DashboardStats.AllFetchedActive | src/hooks/use-dashboard-stats.ts:7-25 | when every fetched employee is active, as the `ativo: true` query asks, both counts agree |
| DashboardStats.SumHorasConcat | src/hooks/use-dashboard-stats.ts:27 | the hours of two halves of the records add up to the hours of all |
| DashboardStats.MissingHoursAddNothing | src/hooks/use-dashboard-stats.ts:26-27 | a record without `total_horas` counts as a presence and adds no hours |
| DashboardStats.HoursNonNegative | src/hooks/use-dashboard-stats.ts:27-30 | with no negative hours the month's total and the average are non-negative |
| ProtectedRoute.Decide | frontend/src/components/auth/ProtectedRoute.js:5-37 | while loading the spinner shows; an unauthenticated visitor is sent to /login; the denial shows iff an authenticated non-admin opens an admin-only route; the page shows iff an authenticated user opens a route that is not admin-only or is an admin |
| ProtectedRoute.UnauthenticatedNeverSeesPage | frontend/src/components/auth/ProtectedRoute.js:8-21 | an unauthenticated visitor sees only the spinner or the redirect |
| ProtectedRoute.DefaultIsNotAdminOnly | frontend/src/components/auth/ProtectedRoute.js:5 | leaving `adminOnly` out is `adminOnly = false`, which admits every authenticated user |
| ProtectedRoute.AdminOnlyOnlyRestricts | frontend/src/components/auth/ProtectedRoute.js:23-35 | marking a route admin-only changes only the page into the denial, and only for non-admins |
| ApiClient.BaseUrl | frontend/src/services/api.ts:5 | the configured backend URL when it is set and non-empty, otherwise http://localhost:8001 |
| ApiClient.UrlSpec | frontend/src/services/api.ts:16 | the request URL is the base URL, then `/api`, then the endpoint exactly as given |
| ApiClient.Headers | frontend/src/services/api.ts:18-28 | the request always carries `Content-Type`, `application/json` unless the caller sets it; every caller header is sent with the caller's value, and nothing else |
| ApiClient.ErrorOf | frontend/src/services/api.ts:31-34 | a non-2xx reply becomes an API error with its status and its truthy `detail`, else the status text; an unreadable body reads as detail "Erro desconhecido" |
| ApiClient.FetchApiAsWritten | frontend/src/services/api.ts:22-47 | a failed fetch is the connection error; a non-2xx reply its API error; a 204 null; a 2xx body that does not parse reaches the caller as the parser's own error |
| ApiClient.FetchApi | frontend/src/services/api.ts:22-47 | with the body awaited inside the `try`: a value iff a 2xx reply other than 204 has a parsable body, and then that body; an unparsable success body becomes the connection error, so every failure is an API error or the connection error |
| ApiClient.AsWrittenDiffersOnlyOnUnparsableSuccess | frontend/src/services/api.ts:41-47 | the written and corrected clients differ exactly on a 2xx reply other than 204 whose body does not parse |
| ApiClient.UnparsableSuccessEscapes | frontend/src/services/api.ts:41-46 | a 200 with an unreadable body escapes the connection-error mapping as written |
| ApiClient.ErrorDetailNeverEmpty | frontend/src/services/api.ts:31-34 | a refused reply with a status text always carries its status and a truthy detail |
| ApiClient.FuncionarioQuery | frontend/src/services/api.ts:53-56 | no parameters give none; `ativo` is sent whenever given, false included, as its text; `setor` only when non-empty; in that order |
| ApiClient.FrequenciaQuery | frontend/src/services/api.ts:85-89 | `data_inicio`, `data_fim` and `funcionario_id` are each sent, in that order, exactly when non-empty |
| ApiClient.Append | frontend/src/services/api.ts:55-89 | appending a parameter keeps the earlier names' values and gives a new name its value |
| ApiClient.SerializeEmptyIff | frontend/src/services/api.ts:57-90 | the serialized parameters are empty iff there are none |
| ApiClient.WithQuery | frontend/src/services/api.ts:57-91 | the endpoint is the bare path without parameters, otherwise the path, `?` and the serialized parameters |
| ApiClient.FuncionariosEndpoint | frontend/src/services/api.ts:53-58 | listing employees with nothing to filter asks for the bare `/funcionarios`; otherwise `/funcionarios?` and the serialized parameters, `ativo` whenever given and `setor` when non-empty, no other parameter and neither twice, `ativo` first |
| ApiClient.FrequenciaEndpoint | frontend/src/services/api.ts:85-91 | listing records with nothing to filter asks for the bare `/frequencia`; otherwise `/frequencia?` and the serialized parameters, each of the three exactly when non-empty, no other parameter and none twice, in the order `data_inicio`, `data_fim`, `funcionario_id` |
| ApiClient.LookupSomeName | frontend/src/services/api.ts:54-57 | a non-empty parameter list made from the known names holds one of them |
| ApiClient.LookupSnoc | frontend/src/services/api.ts:55-89 | appending a parameter keeps every earlier name's value |
| ApiClient.SubseqHeadIn | frontend/src/services/api.ts:54-56 | the first name of an ordered selection of names is one of them |

## Left out

- Hours are modelled as integer minutes. Python floats and `round(…, 2)` in the hour totals are not modelled.
- Calendar datetimes are ISO text. Time zones and `datetime.now()` enter as parameters.
- Only the import's own audit log entry is modelled. Other logging, and the other audit calls, are side effects outside the model.
- Fresh ids (uuid4, ObjectId) are stated as a `requires` that the new id is not stored yet.
- When Mongo's sort sees equal keys, their order is not fixed. Contracts state only "sorted and a permutation".
- `modified_count > 0` is modelled as "the new document differs from the old one".
- Concurrency between requests is not modelled. Each operation is one atomic step on the collection.
- Webhooks: a delivery that throws adds to `total_erros` but not to `total_envios`, so "errors never exceed sends" is not an invariant of the code. `Webhooks.ErrorsBoundedOnlyWithoutThrows` shows when it holds. The intent is unclear, so this is not listed as a finding.
- The outgoing HTTP POST and its signature header are a parameter that maps each webhook to an outcome.
- Logs.LogService.GetLogsStats: the keys of `por_tipo` and `por_status` come in the order of the `$group` output, which MongoDB does not fix. The model lists them in first-seen order. Only the set of keys and each key's count are what the source determines.
- Logs.LogService.GetLogs: requires `limite >= 1`. Mongo's `limit(0)` means "no limit", and that case is not modelled. The same holds for Logs.LogService.GetUserLogs.
- NFKD normalisation in column names is approximated by mapping accented Latin-1 letters to their base letter and the no-break space to a space. The other Latin-1 compatibility decompositions are not modelled: ª º ¹ ² ³ µ ¼ ½ ¾ ´ ¨ ¯ ¸ pass through unchanged, where NFKD rewrites them (ª to a, ² to 2, ½ to 1⁄2, ´ to a space and a combining accent, and so on).
- pandas reading a workbook is a parameter: the sheet arrives as a grid of cells. A missing value (NaN, NaT or None) is one `Blank` cell. Duplicate column labels are not modelled.
- ExcelImportacao.BuildFrequencia: since NaT and None are the same `Blank` cell, `str()` of a missing cell gives "nan" in the model, where pandas gives "NaT" or "None".
- Sheet styling (fonts, fills, borders) is not modelled. The column widths of backend/services/excel_service.py keep its `+ 2`. The `create_excel` of backend/routers/excel_router.py sizes its columns with `+ 3`, and those widths are not modelled.
- Sheets.DataKey: a document whose `data` is not text sorts as the least, with the empty text. In BSON order a missing or null value sorts below every string, but Date and Boolean values sort above strings. The imports in this core store `data` only as non-empty text, since they skip rows without one, so the difference arises only for documents written by other code.
- Float and int conversion failures arrive as an error cell (`floatError` / `intError`). Their exception text is not modelled.
- The truthiness of a numeric cell is judged from its text.
- The error text of `strftime` is not modelled.
- The export endpoints' exceptions are modelled only as the error outcome.
- ExcelRouter.BuildAlimentacao: the record leaves out `valor_unitario`, `quantidade`, `total_dia` and `valor_total`, and the stripping of "R$" from the amounts, because these are floats. It models only when a row raises.
- ExcelRouter.BuildMaterial: the record leaves out `quantidade`, `valor_unitario` and `valor_total`, and the stripping of "R$" from the amounts, because these are floats. It models only when a row raises.
- The import timestamp `importado_em` is one parameter per import, not one clock reading per row.
- ExcelService.ExportImportRoundTrip: stated over the exported row's cells, not over the stored document's fields.
- The excel_importacao endpoints raise an HTTP 400 inside their `try`. The generic `except` turns it into a 500 whose detail is `"400: " + detail`, and the model keeps that, as `ExcelImportacao.Rewrapped400` states.
- backend/routers/excel_router.py:245-246 declares the parameter `request: Request` without a default after `file: UploadFile = File(...)`. Python rejects that as a syntax error, so the module as written does not load. The model takes the evidently intended signature.
- Digits and letters (`isdigit`, `isalpha`, the regular expressions' `\d`) are modelled for ASCII only. Python also accepts other Unicode digits and letters.
- excel_router defines a second `get_client_ip`. It is the same function and is modelled once.
- AuthRouter.InvalidId: the message quotes the id as `'` + id + `'`. bson formats it with `%r`, Python's `repr`, which switches to double quotes for an id containing `'` and no `"`, and escapes backslashes and non-printable characters. Ids with such characters get a different message in the model.
- Extracting the `Authorization: Bearer` header is framework code. The token arrives as a parameter.
- UsuarioModel.ParseCreate: does not check the e-mail's syntax. Pydantic's `EmailStr` does, and that library check is not modelled. The employee form's e-mail check is the parameter `isEmail`.
- UsuarioModel.ValidatePassword: gives the validator's message for a password under 8 characters. In a create request Pydantic's `min_length=8` rejects such a password first, with its own message.
- In an update, an explicit null is treated like a field that was not supplied.
- `get_optional_user` leaves the stored `_id` unconverted. It also replaces every occurrence of "Bearer " in the header, not only a leading one; `AuthDeps.OptionalStripsRepeatedScheme` shows this.
- JavaScript string lengths count UTF-16 code units, and the model counts characters. `toLowerCase` is modelled only for ASCII and Latin-1 letters.
- Dashboard hours are exact reals: no NaN, and no rounding by `toFixed(1)`. The month's bounds come from the clock and are a parameter.
- `toISOString` is not modelled.
- `parseInt` of the lunch time can give NaN. The settings page stores whatever it gets, and the model takes an integer.
- The form-urlencoded escaping of query parameters is a parameter `encode`.
- ApiClient.ErrorOf: a refused reply whose JSON body is `null` makes `errorData.detail` throw a TypeError, which the `catch` turns into the connection error. The model's reply body is either unparsable or an object with a `detail`, so it gives an API error there.
- ApiClient.ErrorOf: a `detail` that is neither text nor missing (`DetailOther`) counts as truthy. In JavaScript `null`, `false` and `0` are falsy, so the source falls back to the status message for those.
- Webhooks.HeadersFor: header names are compared case-sensitively. `fetch` merges names that differ only in case, and that merge is not modelled.
- Only the `fetchApi` core and the two list calls that build query strings are modelled from frontend/src/services/api.ts. The other endpoints only pass a fixed path to `fetchApi`.
- FuncionarioForm.OnSubmit: after a successful save the dialog resets the form, clears the photo and the documents, and closes. That reset is not modelled, and neither is the photo's remove button.
- The employee form logs upload errors and does not surface them. The model records which uploads are attempted.
- The form's default `data_admissao` is today's date, which comes from the clock and is a parameter.
- WebhookDialog reads its initial values from the webhook once, when it mounts. Re-rendering with another webhook is not modelled.
- WebhookDialog.Updated: an edit always sends `headers: {}`, as `WebhookDialog.Submit` states. The stored webhook in the model carries no headers, so the stored headers being cleared is not modelled.
- The browser's URL syntax check behind `type="url"` is a parameter `isUrl`.
- The employee table's batch delete only shows a toast, and the model records only that message.
- `WebhookDialog.ClearedSecretIsKept` shows a behaviour of the code: clearing the secret field when editing keeps the stored secret, because an empty secret is not sent.
- frontend/src/components/funcionarios/FuncionarioFormDialog.tsx is not part of this model. It duplicates the src/ version and refers to names it does not define, and the src/ version is the one modelled.

## Findings

| source | as written | input that shows it | evidently intended | confidence | as-written member | corrected member |
|---|---|---|---|---|---|---|
| backend/services/frequencia_service.py:129-134 | the end bound of a month is the first day of the next month, compared inclusively | January 2025: a record dated 2025-02-01 is returned | the last day of the month, as the code's comment says | not executed | Frequencias.FrequenciaService.AsWrittenReturnsNextMonthFirst | Frequencias.FrequenciaService.GetByFuncionarioMes |
| frontend/src/components/funcionarios/FuncionariosTable.tsx:137 | the header checkbox is checked when the number of selected ids equals the number of visible rows | select every row of sector A, then filter by sector B with as many rows | checked only when every visible row is selected | not executed | FuncionariosTable.HeaderCountMisleads | FuncionariosTable.SelectAllChecksHeader |
| src/pages/Configuracoes.tsx:25 | the new id is `Math.max(...ids) + 1`, which is -Infinity for an empty list | remove every position, then add two: both get the same id | a fresh id, distinct from every id in the list | not executed | Configuracoes.AsWrittenRepeatsIdsAfterEmptying | Configuracoes.AdicionarKeepsIdsUnique |
| frontend/src/services/api.ts:41 | `return response.json()` is not awaited inside the `try` | a 200 reply whose body is not JSON | the parse failure becomes the connection error, like every other failure | not executed | ApiClient.UnparsableSuccessEscapes | ApiClient.AsWrittenDiffersOnlyOnUnparsableSuccess |
