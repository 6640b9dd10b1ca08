/**
 * The webhook create/edit dialog: the form state, the event checkboxes, the
 * submit guard and the row it sends to the `webhooks` table, and the reset
 * after a successful save.
 */
module WebhookDialog {
  import opened Wrappers
  import opened Lists
  import Webhooks

  /** The event types offered as checkboxes. */
  const EventosDisponiveis := ["admissao", "demissao", "atualizacao", "reativacao"]

  /** The dialog's state: the four inputs and the selected event ids. */
  datatype Form = Form(nome: string, url: string, secretKey: string, ativo: bool, eventos: seq<string>)

  /** A webhook being edited, as the list hands it to the dialog. */
  datatype Stored = Stored(id: string, nome: string, url: string, secretKey: Option<string>, ativo: bool, eventos: seq<string>)

  /** The fields `create` and `update` send; an absent secret is `undefined`, which the JSON body leaves out. */
  datatype WebhookData = WebhookData(
    nome: string, url: string, secretKey: Option<string>, eventos: seq<string>, ativo: bool, headers: map<string, string>)

  datatype Submission = Ignored | Create(data: WebhookData) | Update(id: string, data: WebhookData)

  /** The initial state: the edited webhook's values, or empty inputs, active, no events. */
  function Initial(w: Option<Stored>): Form {
    match w
    case None => Form("", "", "", true, [])
    case Some(s) => Form(s.nome, s.url, s.secretKey.GetOr(""), s.ativo, s.eventos)
  }

  /** `resetForm`. */
  function Reset(): (f: Form)
    ensures f == Initial(None)
  {
    Form("", "", "", true, [])
  }

  /** `toggleEvento`: a selected id is removed (every occurrence), another one appended. */
  function Toggle(prev: seq<string>, id: string): seq<string> {
    if id in prev then Filter(prev, x => x != id) else prev + [id]
  }

  /** After a toggle the id is selected exactly when it was not, and every other id is as it was. */
  lemma ToggleFlips(prev: seq<string>, id: string)
    ensures id in Toggle(prev, id) <==> id !in prev
    ensures forall x :: x != id ==> (x in Toggle(prev, id) <==> x in prev)
  {
    var p := (x: string) => x != id;
    forall x | x != id && x in prev
      ensures x in Toggle(prev, id)
    {
      var k :| 0 <= k < |prev| && prev[k] == x;
      if id in prev {
        FilterKeeps(prev, p, k);
      }
    }
  }

  /** Toggling keeps a duplicate-free selection duplicate-free. */
  lemma ToggleNoDuplicates(prev: seq<string>, id: string)
    requires NoDuplicates(prev)
    ensures NoDuplicates(Toggle(prev, id))
  {
    if id in prev {
      FilterNoDuplicates(prev, x => x != id);
    }
  }


  /** `handleSubmit`: nothing without a selected event; otherwise the edited webhook is updated by id, or a new one created. */
  function Submit(form: Form, w: Option<Stored>): (r: Submission)
    ensures r.Ignored? <==> form.eventos == []
    ensures r.Update? <==> w.Some? && form.eventos != []
    ensures r.Update? ==> r.id == w.value.id
    ensures !r.Ignored? ==>
      r.data.nome == form.nome && r.data.url == form.url && r.data.ativo == form.ativo
      && r.data.eventos == form.eventos && r.data.headers == map[]
      && (r.data.secretKey.None? <==> form.secretKey == "")
      && (r.data.secretKey.Some? ==> r.data.secretKey.value == form.secretKey)
  {
    if |form.eventos| == 0 then Ignored
    else
      var data := WebhookData(form.nome, form.url, if form.secretKey == "" then None else Some(form.secretKey),
                              form.eventos, form.ativo, map[]);
      if w.Some? then Update(w.value.id, data) else Create(data)
  }

  /** The submit button is disabled while a save is pending or no event is selected. */
  predicate SubmitDisabled(form: Form, createPending: bool, updatePending: bool) {
    createPending || updatePending || |form.eventos| == 0
  }

  /** Whenever submitting would do nothing, the button is disabled. */
  lemma IgnoredOnlyWhenDisabled(form: Form, createPending: bool, updatePending: bool, w: Option<Stored>)
    ensures Submit(form, w).Ignored? ==> SubmitDisabled(form, createPending, updatePending)
    ensures !SubmitDisabled(form, createPending, updatePending) ==> !Submit(form, w).Ignored?
  {
  }

  /**
   * The browser's constraint validation of the form: `nome` and `url` are
   * `required` and `url` has `type="url"`; `isUrl` is the browser's URL
   * syntax check.
   */
  predicate FormValid(form: Form, isUrl: string -> bool) {
    form.nome != "" && form.url != "" && isUrl(form.url)
  }

  /** Pressing save: the browser stops an invalid form before `handleSubmit` runs. */
  function Save(form: Form, w: Option<Stored>, isUrl: string -> bool): (r: Submission)
    ensures !r.Ignored? ==> r.data.nome != "" && r.data.url != "" && isUrl(r.data.url) && r.data.eventos != []
    ensures r.Ignored? <==> !FormValid(form, isUrl) || form.eventos == []
  {
    if FormValid(form, isUrl) then Submit(form, w) else Ignored
  }

  /** An update writes the fields the body carries; a secret left out keeps the stored one. */
  function Updated(s: Stored, data: WebhookData): Stored {
    Stored(s.id, data.nome, data.url, if data.secretKey.Some? then data.secretKey else s.secretKey, data.ativo, data.eventos)
  }

  /** Emptying the secret input of an existing webhook and saving leaves its secret in place. */
  lemma ClearedSecretIsKept(s: Stored)
    requires s.eventos != []
    ensures var form := Initial(Some(s)).(secretKey := "");
      Submit(form, Some(s)).Update? && Updated(s, Submit(form, Some(s)).data).secretKey == s.secretKey
  {
  }

  /**
   * A webhook row created from the dialog receives, in the dispatcher, exactly
   * the event types that were ticked, and only while it is active.
   */
  lemma CreatedRowSubscriptions(form: Form, id: string, tipo: string)
    requires form.eventos != []
    ensures var d := Submit(form, None).data;
      var row := Webhooks.Webhook(id, d.url, d.ativo, d.eventos, d.headers, d.secretKey, 0, 0, None);
      Webhooks.Subscribed(row, tipo) <==> form.ativo && tipo in form.eventos
  {
  }
}
