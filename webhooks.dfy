/**
 * The webhook fan-out edge function: given an employee event id, it loads
 * the event, selects the active webhooks subscribed to the event's type,
 * POSTs the same payload to each, records per-webhook delivery counters and
 * answers with one result entry per selected webhook.
 *
 * The database is the `WebhookDb` object (its `eventos` and `webhooks`
 * tables). The HTTP client is the `post` parameter: it maps the attempt's
 * position and the request to an arbitrary outcome, a status code or a thrown
 * error, so every property below holds for every behaviour of the network.
 * The counter update after each attempt is told by the `Updates` parameter:
 * the clock reading it writes and whether the database refuses it.
 * The settle-all fan-out is modelled as a sequential loop in selection order.
 */
module Webhooks {
  import opened Wrappers
  import opened Lists

  /** A JSON object of string fields (an employee row as stored in `dados_novos`). */
  type Doc = map<string, string>

  /** A row of `funcionario_eventos`. */
  datatype Evento = Evento(
    id: string,
    tipoEvento: string,
    dadosNovos: Doc,
    dadosAnteriores: Option<Doc>,
    createdAt: string)

  /** A row of `webhooks`; `headers` is the custom header object (an absent one is empty). */
  datatype Webhook = Webhook(
    id: string,
    url: string,
    ativo: bool,
    eventos: seq<string>,
    headers: map<string, string>,
    secretKey: Option<string>,
    totalEnvios: int,
    totalErros: int,
    ultimoEnvio: Option<string>)

  /** The JSON body POSTed to every webhook. */
  datatype Payload = Payload(
    tipoEvento: string,
    funcionario: Doc,
    dadosAnteriores: Option<Doc>,
    timestamp: string)

  /** A POST request as handed to `fetch`. */
  datatype HttpRequest = HttpRequest(url: string, headers: map<string, string>, body: Payload)

  /** What one delivery attempt yields: a response with a status code, or a thrown error. */
  datatype Outcome = Responded(status: int) | Threw(message: string)

  /** One element of the `results` array. */
  datatype Entry = Delivered(webhookId: string, status: int, success: bool) | Rejected(error: string)

  /** The columns one `update(...).eq("id", ...)` call writes; `totalEnvios` is absent when it writes none. */
  datatype Patch = Patch(ultimoEnvio: string, totalEnvios: Option<int>, totalErros: int)

  /**
   * What the counter update after the k-th attempt meets: `clock(k)` is that
   * update's own `new Date().toISOString()`, and `fails(k)` says the database
   * refused it. The handler awaits the update but never looks at the
   * `{ error }` it returns, so a refused update leaves the row as it was and
   * the attempt is reported all the same.
   */
  datatype Updates = Updates(clock: nat -> string, fails: nat -> bool)

  /** An incoming request: a CORS preflight, or a POST whose JSON body held `evento_id` or failed to parse. */
  datatype Request = Preflight | Invoke(body: Result<string, string>)

  datatype Body =
    | NoBody
    | Message(message: string)
    | Processed(message: string, results: seq<Entry>)
    | Failure(error: string)

  /** A response: status code and JSON body (every response also carries the CORS headers). */
  datatype Reply = Reply(status: int, body: Body)

  const ContentType := "Content-Type"
  const JsonMediaType := "application/json"
  const SecretHeader := "X-Webhook-Secret"
  const NotFoundMessage := "Evento não encontrado"
  const SelectFailedMessage := "Erro ao buscar webhooks"
  const NoneConfiguredMessage := "Nenhum webhook configurado para este evento"
  const ProcessedMessage := "Webhooks processados"

  /** An "ok status" in the sense of the WHATWG Fetch Standard: 200 to 299. */
  predicate IsOk(status: int) {
    200 <= status <= 299
  }

  /** No two rows share an id. */
  predicate UniqueIds(ws: seq<Webhook>) {
    forall i, j :: 0 <= i < j < |ws| ==> ws[i].id != ws[j].id
  }

  predicate UniqueEventoIds(es: seq<Evento>) {
    forall i, j :: 0 <= i < j < |es| ==> es[i].id != es[j].id
  }

  // ---------------------------------------------------------------------------
  // The pure parts: lookup, selection, payload, headers, result entries
  // ---------------------------------------------------------------------------

  /** `.eq("id", id).single()` on the events table. */
  function FindEvento(es: seq<Evento>, id: string): (r: Option<Evento>)
    ensures r.Some? ==> r.value in es && r.value.id == id
    ensures r.None? <==> forall i :: 0 <= i < |es| ==> es[i].id != id
  {
    if es == [] then None
    else if es[0].id == id then Some(es[0])
    else
      var r := FindEvento(es[1..], id);
      assert forall i :: 1 <= i < |es| ==> es[i] == es[1..][i - 1];
      r
  }

  /** `.eq("ativo", true).contains("eventos", [tipo])`. */
  predicate Subscribed(w: Webhook, tipo: string) {
    w.ativo && tipo in w.eventos
  }

  /** The webhooks that receive an event of type `tipo`, in table order. */
  function Select(ws: seq<Webhook>, tipo: string): (r: seq<Webhook>)
    ensures forall k :: 0 <= k < |r| ==> r[k] in ws && Subscribed(r[k], tipo)
  {
    if ws == [] then []
    else (if Subscribed(ws[0], tipo) then [ws[0]] else []) + Select(ws[1..], tipo)
  }

  /** Every subscribed webhook is selected. */
  lemma {:induction false} SelectKeeps(ws: seq<Webhook>, tipo: string, i: nat)
    requires i < |ws| && Subscribed(ws[i], tipo)
    ensures ws[i] in Select(ws, tipo)
  {
    if i > 0 {
      SelectKeeps(ws[1..], tipo, i - 1);
    }
  }

  function PayloadOf(e: Evento): Payload {
    Payload(e.tipoEvento, e.dadosNovos, e.dadosAnteriores, e.createdAt)
  }

  /** The secret to send: a non-empty `secret_key` (JavaScript truthiness). */
  function SecretOf(w: Webhook): Option<string> {
    if w.secretKey.Some? && w.secretKey.value != "" then w.secretKey else None
  }

  /**
   * The request headers: `Content-Type: application/json`, then the custom
   * headers spread over it, then the secret set last.
   */
  function HeadersFor(w: Webhook): (h: map<string, string>)
    ensures forall k :: k in h <==> k == ContentType || k in w.headers || (SecretOf(w).Some? && k == SecretHeader)
    ensures SecretOf(w).Some? ==> h[SecretHeader] == SecretOf(w).value
    ensures forall k :: k in w.headers && !(SecretOf(w).Some? && k == SecretHeader) ==> h[k] == w.headers[k]
    ensures ContentType !in w.headers ==> h[ContentType] == JsonMediaType
  {
    var merged := map[ContentType := JsonMediaType] + w.headers;
    match SecretOf(w)
    case Some(s) => merged[SecretHeader := s]
    case None => merged
  }

  function RequestFor(w: Webhook, p: Payload): HttpRequest {
    HttpRequest(w.url, HeadersFor(w), p)
  }

  /** The outcome of the k-th attempt of a fan-out over `sel`. */
  function Attempt(sel: seq<Webhook>, k: nat, p: Payload, post: (nat, HttpRequest) -> Outcome): Outcome
    requires k < |sel|
  {
    post(k, RequestFor(sel[k], p))
  }

  /** The counters written after an attempt, computed from the row as it was selected. */
  function PatchFor(w: Webhook, o: Outcome, now: string): Patch {
    match o
    case Responded(status) =>
      Patch(now, Some(w.totalEnvios + 1), if IsOk(status) then w.totalErros else w.totalErros + 1)
    case Threw(_) =>
      Patch(now, None, w.totalErros + 1)
  }

  function ApplyPatch(row: Webhook, p: Patch): Webhook {
    row.(ultimoEnvio := Some(p.ultimoEnvio),
         totalEnvios := p.totalEnvios.GetOr(row.totalEnvios),
         totalErros := p.totalErros)
  }

  /** `update(p).eq("id", id)`: patches every row with that id. */
  function UpdateWhere(ws: seq<Webhook>, id: string, p: Patch): seq<Webhook> {
    seq(|ws|, i requires 0 <= i < |ws| => if ws[i].id == id then ApplyPatch(ws[i], p) else ws[i])
  }

  /** The same update as the database carries it out: a refused one changes nothing. */
  function UpdateUnlessRefused(ws: seq<Webhook>, id: string, p: Patch, refused: bool): seq<Webhook> {
    if refused then ws else UpdateWhere(ws, id, p)
  }

  /** A row after the k-th attempt's own update: patched with its outcome and clock reading, or as it was if refused. */
  function AfterAttempt(row: Webhook, sel: seq<Webhook>, k: nat, p: Payload,
                        post: (nat, HttpRequest) -> Outcome, upd: Updates): Webhook
    requires k < |sel|
  {
    if upd.fails(k) then row else ApplyPatch(row, PatchFor(sel[k], Attempt(sel, k, p, post), upd.clock(k)))
  }

  function EntryOf(w: Webhook, o: Outcome): Entry {
    match o
    case Responded(status) => Delivered(w.id, status, IsOk(status))
    case Threw(message) => Rejected(message)
  }

  /** The `results` array of a fan-out over `sel`. */
  function Entries(sel: seq<Webhook>, p: Payload, post: (nat, HttpRequest) -> Outcome): (r: seq<Entry>)
    ensures |r| == |sel|
  {
    seq(|sel|, k requires 0 <= k < |sel| => EntryOf(sel[k], Attempt(sel, k, p, post)))
  }

  /** The webhooks table after attempting every webhook of `sel` in order. */
  function Deliver(ws: seq<Webhook>, sel: seq<Webhook>, p: Payload,
                   post: (nat, HttpRequest) -> Outcome, upd: Updates): (r: seq<Webhook>)
    ensures |r| == |ws| && forall i :: 0 <= i < |ws| ==> r[i].id == ws[i].id
    decreases |sel|
  {
    if sel == [] then ws
    else
      var k := |sel| - 1;
      var before := Deliver(ws, sel[..k], p, post, upd);
      UpdateUnlessRefused(before, sel[k].id, PatchFor(sel[k], Attempt(sel, k, p, post), upd.clock(k)), upd.fails(k))
  }

  /** One more attempt issues its own counter update on the table left by the earlier ones. */
  lemma DeliverStep(ws: seq<Webhook>, sel: seq<Webhook>, k: nat, p: Payload,
                    post: (nat, HttpRequest) -> Outcome, upd: Updates)
    requires k < |sel|
    ensures Deliver(ws, sel[..k + 1], p, post, upd)
         == UpdateUnlessRefused(Deliver(ws, sel[..k], p, post, upd), sel[k].id,
                                PatchFor(sel[k], Attempt(sel, k, p, post), upd.clock(k)), upd.fails(k))
  {
    assert sel[..k + 1][..k] == sel[..k];
  }

  lemma EntriesStep(sel: seq<Webhook>, k: nat, p: Payload, post: (nat, HttpRequest) -> Outcome)
    requires k < |sel|
    ensures Entries(sel[..k + 1], p, post) == Entries(sel[..k], p, post) + [EntryOf(sel[k], Attempt(sel, k, p, post))]
  {
  }

  /** The reply and the new webhooks table for one request. */
  function Dispatch(es: seq<Evento>, ws: seq<Webhook>, req: Request,
                    post: (nat, HttpRequest) -> Outcome, upd: Updates, selectFails: bool): (Reply, seq<Webhook>)
  {
    match req
    case Preflight => (Reply(200, NoBody), ws)
    case Invoke(Err(message)) => (Reply(500, Failure(message)), ws)
    case Invoke(Ok(id)) =>
      match FindEvento(es, id)
      case None => (Reply(500, Failure(NotFoundMessage)), ws)
      case Some(e) =>
        if selectFails then (Reply(500, Failure(SelectFailedMessage)), ws)
        else
          var sel := Select(ws, e.tipoEvento);
          if sel == [] then (Reply(200, Message(NoneConfiguredMessage)), ws)
          else
            (Reply(200, Processed(ProcessedMessage, Entries(sel, PayloadOf(e), post))),
             Deliver(ws, sel, PayloadOf(e), post, upd))
  }

  // ---------------------------------------------------------------------------
  // The database and the handler
  // ---------------------------------------------------------------------------

  class WebhookDb {
    var eventos: seq<Evento>
    var webhooks: seq<Webhook>

    /** Primary keys are unique. */
    predicate Valid()
      reads this
    {
      UniqueEventoIds(eventos) && UniqueIds(webhooks)
    }

    constructor (es: seq<Evento>, ws: seq<Webhook>)
      requires UniqueEventoIds(es) && UniqueIds(ws)
      ensures Valid() && eventos == es && webhooks == ws
    {
      eventos := es;
      webhooks := ws;
    }

    /**
     * The `serve` handler. `upd` gives each counter update its clock reading
     * and says which updates the database refuses; `selectFails` says whether
     * the webhooks query errs.
     */
    method Handle(req: Request, post: (nat, HttpRequest) -> Outcome, upd: Updates, selectFails: bool)
      returns (reply: Reply)
      requires Valid()
      modifies this
      ensures Valid() && eventos == old(eventos)
      ensures (reply, webhooks) == Dispatch(old(eventos), old(webhooks), req, post, upd, selectFails)
    {
      if req.Preflight? {
        return Reply(200, NoBody);
      }
      if req.body.Err? {
        return Reply(500, Failure(req.body.error));
      }
      var evento := FindEvento(eventos, req.body.value);
      if evento.None? {
        return Reply(500, Failure(NotFoundMessage));
      }
      if selectFails {
        return Reply(500, Failure(SelectFailedMessage));
      }
      var e := evento.value;
      var sel := Select(webhooks, e.tipoEvento);
      if |sel| == 0 {
        return Reply(200, Message(NoneConfiguredMessage));
      }
      var results := FanOut(sel, PayloadOf(e), post, upd);
      reply := Reply(200, Processed(ProcessedMessage, results));
    }

    /**
     * The fan-out: one attempt per selected webhook, in order, each followed
     * by its counter update, which the database may refuse.
     */
    method FanOut(sel: seq<Webhook>, payload: Payload, post: (nat, HttpRequest) -> Outcome, upd: Updates)
      returns (results: seq<Entry>)
      modifies this
      ensures eventos == old(eventos)
      ensures webhooks == Deliver(old(webhooks), sel, payload, post, upd)
      ensures results == Entries(sel, payload, post)
    {
      results := [];
      var k := 0;
      while k < |sel|
        invariant 0 <= k <= |sel| && eventos == old(eventos)
        invariant webhooks == Deliver(old(webhooks), sel[..k], payload, post, upd)
        invariant results == Entries(sel[..k], payload, post)
      {
        var w := sel[k];
        var outcome := post(k, RequestFor(w, payload));
        DeliverStep(old(webhooks), sel, k, payload, post, upd);
        EntriesStep(sel, k, payload, post);
        webhooks := UpdateUnlessRefused(webhooks, w.id, PatchFor(w, outcome, upd.clock(k)), upd.fails(k));
        results := results + [EntryOf(w, outcome)];
        k := k + 1;
      }
      assert sel[..k] == sel;
    }
  }

  // ---------------------------------------------------------------------------
  // Properties
  // ---------------------------------------------------------------------------

  /** A delivery that gets a response counts one send, and one error iff the status is not ok. */
  lemma ResponseCounters(w: Webhook, status: int, now: string)
    ensures var r := ApplyPatch(w, PatchFor(w, Responded(status), now));
      r == w.(ultimoEnvio := Some(now), totalEnvios := w.totalEnvios + 1,
              totalErros := if IsOk(status) then w.totalErros else w.totalErros + 1)
  {
  }

  /** A delivery that throws counts one error and no send. */
  lemma ThrowCounters(w: Webhook, message: string, now: string)
    ensures ApplyPatch(w, PatchFor(w, Threw(message), now))
         == w.(ultimoEnvio := Some(now), totalErros := w.totalErros + 1)
  {
  }

  /**
   * Because a thrown delivery is not counted as a send, `total_erros <=
   * total_envios` is kept by every response but broken by a throw on a
   * webhook whose every send so far failed.
   */
  lemma ErrorsBoundedOnlyWithoutThrows(w: Webhook, o: Outcome, now: string)
    requires w.totalErros <= w.totalEnvios
    ensures var r := ApplyPatch(w, PatchFor(w, o, now));
      (o.Responded? ==> r.totalErros <= r.totalEnvios)
      && (o.Threw? && w.totalErros == w.totalEnvios ==> r.totalErros > r.totalEnvios)
  {
  }

  /** The selection of a table with unique ids has unique ids. */
  lemma {:induction false} SelectIdsUnique(ws: seq<Webhook>, tipo: string)
    requires UniqueIds(ws)
    ensures UniqueIds(Select(ws, tipo))
  {
    if ws != [] {
      var tail := ws[1..];
      SelectIdsUnique(tail, tipo);
      var rest := Select(tail, tipo);
      if Subscribed(ws[0], tipo) {
        forall k | 0 <= k < |rest|
          ensures rest[k].id != ws[0].id
        {
          assert rest[k] in tail;
        }
      }
    }
  }

  /** A row whose id no attempt names is left as it was. */
  lemma {:induction false} DeliverUntouched(ws: seq<Webhook>, sel: seq<Webhook>, p: Payload,
                                            post: (nat, HttpRequest) -> Outcome, upd: Updates, i: nat)
    requires i < |ws| && forall k :: 0 <= k < |sel| ==> sel[k].id != ws[i].id
    ensures Deliver(ws, sel, p, post, upd)[i] == ws[i]
    decreases |sel|
  {
    if sel != [] {
      DeliverUntouched(ws, sel[..|sel| - 1], p, post, upd, i);
    }
  }

  /**
   * The row attempted at position k gets exactly the patch computed from the
   * k-th attempt's outcome, stamped with that update's own clock reading,
   * however the other attempts went; if that update is refused, the row is
   * left as it was.
   */
  lemma {:induction false} DeliverTouched(ws: seq<Webhook>, sel: seq<Webhook>, p: Payload,
                                          post: (nat, HttpRequest) -> Outcome, upd: Updates, i: nat, k: nat)
    requires i < |ws| && k < |sel| && sel[k].id == ws[i].id && UniqueIds(sel)
    ensures Deliver(ws, sel, p, post, upd)[i] == AfterAttempt(ws[i], sel, k, p, post, upd)
    decreases |sel|
  {
    var n := |sel| - 1;
    var init := sel[..n];
    if k == n {
      DeliverUntouched(ws, init, p, post, upd, i);
    } else {
      DeliverTouched(ws, init, p, post, upd, i, k);
    }
  }

  /**
   * An event id with no row: a 500 with "Evento não encontrado", whatever
   * the network would have done, and the table unchanged.
   */
  lemma NotFoundContactsNobody(es: seq<Evento>, ws: seq<Webhook>, id: string,
                               post1: (nat, HttpRequest) -> Outcome, post2: (nat, HttpRequest) -> Outcome,
                               upd: Updates, selectFails: bool)
    requires forall i :: 0 <= i < |es| ==> es[i].id != id
    ensures Dispatch(es, ws, Invoke(Ok(id)), post1, upd, selectFails)
         == (Reply(500, Failure(NotFoundMessage)), ws)
         == Dispatch(es, ws, Invoke(Ok(id)), post2, upd, selectFails)
  {
  }

  /** No subscribed active webhook: a 200 with the "nothing configured" message and no change. */
  lemma NoneSubscribedChangesNothing(es: seq<Evento>, ws: seq<Webhook>, e: Evento,
                                     post: (nat, HttpRequest) -> Outcome, upd: Updates)
    requires FindEvento(es, e.id) == Some(e)
    requires forall i :: 0 <= i < |ws| ==> !Subscribed(ws[i], e.tipoEvento)
    ensures Dispatch(es, ws, Invoke(Ok(e.id)), post, upd, false)
         == (Reply(200, Message(NoneConfiguredMessage)), ws)
  {
  }

  /**
   * What the fan-out over `sel` does to row i of the table: an unsubscribed
   * row is untouched; a subscribed one is some selected webhook k, left as
   * `AfterAttempt` says, whose entry reports that same attempt.
   */
  predicate RowEffect(ws: seq<Webhook>, sel: seq<Webhook>, tipo: string, p: Payload,
                      post: (nat, HttpRequest) -> Outcome, upd: Updates, out: seq<Webhook>, i: nat)
    requires i < |ws| && |out| == |ws|
  {
    && (!Subscribed(ws[i], tipo) ==> out[i] == ws[i])
    && (Subscribed(ws[i], tipo) ==>
          exists k :: 0 <= k < |sel| && sel[k] == ws[i]
            && out[i] == AfterAttempt(ws[i], sel, k, p, post, upd)
            && Entries(sel, p, post)[k] == EntryOf(ws[i], Attempt(sel, k, p, post)))
  }

  /** The fan-out over the selection has that effect on every row. */
  lemma DeliverSelected(ws: seq<Webhook>, tipo: string, p: Payload,
                        post: (nat, HttpRequest) -> Outcome, upd: Updates, i: nat)
    requires UniqueIds(ws) && i < |ws|
    ensures var sel := Select(ws, tipo);
      RowEffect(ws, sel, tipo, p, post, upd, Deliver(ws, sel, p, post, upd), i)
  {
    var sel := Select(ws, tipo);
    SelectIdsUnique(ws, tipo);
    if Subscribed(ws[i], tipo) {
      SelectKeeps(ws, tipo, i);
      var k :| 0 <= k < |sel| && sel[k] == ws[i];
      DeliverTouched(ws, sel, p, post, upd, i, k);
    } else {
      forall k | 0 <= k < |sel|
        ensures sel[k].id != ws[i].id
      {
        assert sel[k] in ws;
      }
      DeliverUntouched(ws, sel, p, post, upd, i);
    }
  }

  /**
   * A processed event: one result entry per selected webhook in selection
   * order, each reporting its own attempt, and every row of the table either
   * untouched (not subscribed or its update refused) or patched from its own
   * attempt with its own clock reading.
   */
  lemma ProcessedEffect(es: seq<Evento>, ws: seq<Webhook>, e: Evento,
                        post: (nat, HttpRequest) -> Outcome, upd: Updates, i: nat)
    requires UniqueIds(ws) && FindEvento(es, e.id) == Some(e) && i < |ws|
    requires Select(ws, e.tipoEvento) != []
    ensures var sel := Select(ws, e.tipoEvento);
      var out := Dispatch(es, ws, Invoke(Ok(e.id)), post, upd, false);
      && out.0 == Reply(200, Processed(ProcessedMessage, Entries(sel, PayloadOf(e), post)))
      && |out.1| == |ws|
      && RowEffect(ws, sel, e.tipoEvento, PayloadOf(e), post, upd, out.1, i)
  {
    DispatchProcessed(es, ws, e, post, upd);
    DeliverSelected(ws, e.tipoEvento, PayloadOf(e), post, upd, i);
  }

  /**
   * The reply does not depend on the counter updates: a refused update is
   * reported as a delivery just like one the database accepted.
   */
  lemma ReplyIgnoresUpdates(es: seq<Evento>, ws: seq<Webhook>, req: Request,
                            post: (nat, HttpRequest) -> Outcome, upd1: Updates, upd2: Updates, selectFails: bool)
    ensures Dispatch(es, ws, req, post, upd1, selectFails).0 == Dispatch(es, ws, req, post, upd2, selectFails).0
  {
  }

  /** With every update refused, a processed event leaves the whole table as it was. */
  lemma {:induction false} AllUpdatesRefused(ws: seq<Webhook>, sel: seq<Webhook>, p: Payload,
                                             post: (nat, HttpRequest) -> Outcome, upd: Updates)
    requires forall k :: 0 <= k < |sel| ==> upd.fails(k)
    ensures Deliver(ws, sel, p, post, upd) == ws
    decreases |sel|
  {
    if sel != [] {
      AllUpdatesRefused(ws, sel[..|sel| - 1], p, post, upd);
    }
  }

  /** A found event with some subscriber is answered with its entries, and the table is `Deliver`'s. */
  lemma DispatchProcessed(es: seq<Evento>, ws: seq<Webhook>, e: Evento,
                          post: (nat, HttpRequest) -> Outcome, upd: Updates)
    requires FindEvento(es, e.id) == Some(e) && Select(ws, e.tipoEvento) != []
    ensures var sel := Select(ws, e.tipoEvento);
      Dispatch(es, ws, Invoke(Ok(e.id)), post, upd, false)
      == (Reply(200, Processed(ProcessedMessage, Entries(sel, PayloadOf(e), post))), Deliver(ws, sel, PayloadOf(e), post, upd))
  {
  }

  /** The Content-Type a custom header sets is sent, but no custom header can replace the secret. */
  lemma SecretWins(w: Webhook)
    requires SecretOf(w).Some?
    ensures HeadersFor(w)[SecretHeader] == w.secretKey.value
    ensures ContentType in w.headers ==> HeadersFor(w)[ContentType] == w.headers[ContentType]
  {
  }
}
