/**
 The HTTP handlers (app.py:157-246) as functions of the registry: each checks
 its body fields, rejects an unknown client id, and otherwise hands one
 request to the session's worker and waits for its reply. `Serve` folds the
 handlers over a sequence of calls, which is where the properties about
 client ids across calls are stated.
 */
module Routes {
  import opened Telegram
  import opened Replies
  import opened Sessions
  import Actions
  import Worker

  /** A field of the JSON body: absent (or null), or a string. */
  datatype Field = Missing | Given(value: string)

  /** Python truthiness of a field: `not x` rejects an absent field and "". */
  predicate Present(f: Field) {
    f.Given? && f.value != ""
  }

  datatype HttpRequest =
    | PostAuthByPhone(phone: Field)
    | PostAuthByCode(clientId: Field, code: Field)
    | PostSendMessage(clientId: Field, toPhone: Field, text: Field)
    | PostSendMessageToSelf(clientId: Field, text: Field)
    | GetClientsRoute
    | PostDisconnect(clientId: Field)

  /** The JSON answered: a status dictionary, the new client id, or the listing. */
  datatype Response = Status(reply: Reply) | Admitted(clientId: ClientId) | Clients(listing: set<ClientInfo>)

  /** A request placed on a session's queue. */
  datatype Delivery = Delivery(clientId: ClientId, request: Worker.Request)

  /** A handler's effect: the registry afterwards, the response, and what it queued. */
  datatype Handled = Handled(registry: Registry, response: Response, queued: seq<Delivery>)

  /** Hands `req` to the registered session `id` and waits for its reply. */
  function Forward(reg: Registry, id: ClientId, req: Worker.Request, o: Oracle): Handled
    requires id in reg
  {
    var d := Dispatch(reg, id, req, o);
    Handled(d.registry, Status(d.reply), [Delivery(id, req)])
  }

  /** `auth_by_phone` (app.py:157-180). `newId` stands for the generated uuid. */
  function AuthByPhone(reg: Registry, phone: Field, newId: ClientId, o: Oracle): (h: Handled)
    ensures !Present(phone) ==> h == Handled(reg, Status(Err(PhoneRequired)), [])
    ensures Present(phone) ==> h.queued == [Delivery(newId, Worker.SendCodeReq)]
    // the new entry is kept exactly when the code request succeeded
    ensures Present(phone) && newId !in reg ==> (h.response == Admitted(newId) <==> Worker.CodeAccepted(o))
    ensures Present(phone) && newId !in reg && Worker.CodeAccepted(o) ==>
              h.registry == reg[newId := Session(phone.value, false)]
    // otherwise it is deleted again and the worker's error is reported
    ensures Present(phone) && !Worker.CodeAccepted(o) ==> h.registry == reg - {newId} && h.response.Status?
    ensures h.response.Status? ==> h.response.reply.Err?
    ensures Present(phone) && o.authorized.ProbeRaises? ==> h.response == Status(Err(o.authorized.exc.message))
    ensures Present(phone) && o.authorized == Answers(false) && o.codeRequest.Raises? ==>
              h.response == Status(Err(o.codeRequest.exc.message))
    ensures forall k :: k != newId ==> Untouched(reg, h.registry, k)
  {
    if !Present(phone) then
      Handled(reg, Status(Err(PhoneRequired)), [])
    else
      var admitted := if newId in reg then reg else reg[newId := Session(phone.value, false)];
      var h := Forward(admitted, newId, Worker.SendCodeReq, o);
      if h.response.reply.Ok? then
        Handled(h.registry, Admitted(newId), h.queued)
      else
        Handled(h.registry - {newId}, h.response, h.queued)
  }

  /** `auth_by_code` (app.py:182-195). */
  function AuthByCode(reg: Registry, clientId: Field, code: Field, o: Oracle): (h: Handled)
    ensures !Present(clientId) || !Present(code) ==> h == Handled(reg, Status(Err(IdAndCodeRequired)), [])
    ensures Present(clientId) && Present(code) && clientId.value !in reg ==>
              h == Handled(reg, Status(Err(NotRegistered)), [])
    ensures Present(clientId) && Present(code) && clientId.value in reg ==>
              && h.queued == [Delivery(clientId.value, Worker.SignInReq(code.value))]
              && h.registry.Keys == reg.Keys
              && h.registry[clientId.value].authenticated == (reg[clientId.value].authenticated || o.signIn.Succeeds?)
              && (h.response == Status(Ok) <==> o.signIn.Succeeds?)
              && (o.signIn.Raises? ==> h.response == Status(Err(o.signIn.exc.message)))
    ensures forall k :: !(clientId == Given(k)) ==> Untouched(reg, h.registry, k)
  {
    if !Present(clientId) || !Present(code) then
      Handled(reg, Status(Err(IdAndCodeRequired)), [])
    else if clientId.value !in reg then
      Handled(reg, Status(Err(NotRegistered)), [])
    else
      Forward(reg, clientId.value, Worker.SignInReq(code.value), o)
  }

  /** `send_message` (app.py:197-211). Sending never changes the registry. */
  function SendMessage(reg: Registry, clientId: Field, toPhone: Field, text: Field, o: Oracle): (h: Handled)
    ensures h.registry == reg
    ensures !Present(clientId) || !Present(toPhone) || !Present(text) ==>
              h == Handled(reg, Status(Err(IdRecipientAndTextRequired)), [])
    ensures Present(clientId) && Present(toPhone) && Present(text) && clientId.value !in reg ==>
              h == Handled(reg, Status(Err(NotRegistered)), [])
    ensures Present(clientId) && Present(toPhone) && Present(text) && clientId.value in reg ==>
              && h.queued == [Delivery(clientId.value, Worker.SendMessageReq(toPhone.value, text.value))]
              && (!reg[clientId.value].authenticated ==> h.response == Status(Err(NotAuthenticated)))
              && (h.response == Status(Ok) <==> reg[clientId.value].authenticated && Actions.Delivered(o))
              // otherwise the worker's error is answered: the helper's own error, or str(e) of what escaped it
              && (reg[clientId.value].authenticated ==>
                    h.response == Status(Worker.Settle(Actions.SendMessage(toPhone.value, text.value, o).completion)))
              && (reg[clientId.value].authenticated && Actions.FirstFailsNotFound(o) && o.importContacts == Imported(0) ==>
                    h.response == Status(Err(ContactNotImported)))
  {
    if !Present(clientId) || !Present(toPhone) || !Present(text) then
      Handled(reg, Status(Err(IdRecipientAndTextRequired)), [])
    else if clientId.value !in reg then
      Handled(reg, Status(Err(NotRegistered)), [])
    else
      Forward(reg, clientId.value, Worker.SendMessageReq(toPhone.value, text.value), o)
  }

  /** `send_message_to_self` (app.py:213-226). Sending never changes the registry. */
  function SendMessageToSelf(reg: Registry, clientId: Field, text: Field, o: Oracle): (h: Handled)
    ensures h.registry == reg
    ensures !Present(clientId) || !Present(text) ==> h == Handled(reg, Status(Err(IdAndTextRequired)), [])
    ensures Present(clientId) && Present(text) && clientId.value !in reg ==>
              h == Handled(reg, Status(Err(NotRegistered)), [])
    ensures Present(clientId) && Present(text) && clientId.value in reg ==>
              && h.queued == [Delivery(clientId.value, Worker.SendMessageToSelfReq(text.value))]
              && (!reg[clientId.value].authenticated ==> h.response == Status(Err(NotAuthenticated)))
              && (h.response == Status(Ok) <==>
                    reg[clientId.value].authenticated && o.getMe.Succeeds? && o.sendToSelf.Succeeds?)
              && (reg[clientId.value].authenticated ==>
                    h.response == Status(Actions.SendMessageToSelf(text.value, o).completion.reply))
              && (reg[clientId.value].authenticated && o.getMe.Raises? ==> h.response == Status(Err(o.getMe.exc.message)))
  {
    if !Present(clientId) || !Present(text) then
      Handled(reg, Status(Err(IdAndTextRequired)), [])
    else if clientId.value !in reg then
      Handled(reg, Status(Err(NotRegistered)), [])
    else
      Forward(reg, clientId.value, Worker.SendMessageToSelfReq(text.value), o)
  }

  /** `disconnect` (app.py:234-246): the session is gone afterwards, whether or
      not the log-out succeeded. */
  function Disconnect(reg: Registry, clientId: Field, o: Oracle): (h: Handled)
    ensures !Present(clientId) ==> h == Handled(reg, Status(Err(IdRequired)), [])
    ensures Present(clientId) && clientId.value !in reg ==> h == Handled(reg, Status(Err(NotFound)), [])
    ensures Present(clientId) && clientId.value in reg ==>
              && h.queued == [Delivery(clientId.value, Worker.DisconnectReq)]
              && h.registry == reg - {clientId.value}
              && (h.response == Status(Ok) <==> o.logOut.Succeeds?)
              && (o.logOut.Raises? ==> h.response == Status(Err(o.logOut.exc.message)))
  {
    if !Present(clientId) then
      Handled(reg, Status(Err(IdRequired)), [])
    else if clientId.value !in reg then
      Handled(reg, Status(Err(NotFound)), [])
    else
      Forward(reg, clientId.value, Worker.DisconnectReq, o)
  }

  /** The fields the route requires are all present. */
  predicate FieldsPresent(req: HttpRequest) {
    match req
    case PostAuthByPhone(phone) => Present(phone)
    case PostAuthByCode(clientId, code) => Present(clientId) && Present(code)
    case PostSendMessage(clientId, toPhone, text) => Present(clientId) && Present(toPhone) && Present(text)
    case PostSendMessageToSelf(clientId, text) => Present(clientId) && Present(text)
    case GetClientsRoute => true
    case PostDisconnect(clientId) => Present(clientId)
  }

  /** The ids whose entry a call may add, change or remove. */
  function Addressed(req: HttpRequest, newId: ClientId): set<ClientId> {
    match req
    case PostAuthByPhone(_) => {newId}
    case GetClientsRoute => {}
    case _ => if req.clientId.Given? then {req.clientId.value} else {}
  }

  /** A well-formed call that names the existing session `id`. */
  predicate TargetsClient(req: HttpRequest, id: ClientId) {
    !req.PostAuthByPhone? && !req.GetClientsRoute? && FieldsPresent(req) && req.clientId == Given(id)
  }

  /** The rejection a route gives a client id that is not registered. */
  function UnknownClient(req: HttpRequest): string {
    if req.PostDisconnect? then NotFound else NotRegistered
  }

  /** One HTTP call. */
  function Handle(reg: Registry, req: HttpRequest, newId: ClientId, o: Oracle): (h: Handled)
    // nothing outside the addressed id changes
    ensures forall k :: k !in Addressed(req, newId) ==> Untouched(reg, h.registry, k)
    // a missing field is rejected before the registry or a queue is touched
    ensures !FieldsPresent(req) ==> h.registry == reg && h.queued == [] && h.response.Status? && h.response.reply.Err?
    // an unknown client is rejected and nothing is queued
    ensures forall id :: TargetsClient(req, id) && id !in reg ==>
              h == Handled(reg, Status(Err(UnknownClient(req))), [])
    // at most one request is queued, to the addressed session
    ensures |h.queued| <= 1 && forall d :: d in h.queued ==> d.clientId in Addressed(req, newId)
    // an entry only appears through a successful auth_by_phone
    ensures forall k :: k in h.registry && k !in reg ==> req.PostAuthByPhone? && h.response == Admitted(k)
    // a disconnect of a named client leaves it unregistered
    ensures req.PostDisconnect? && Present(req.clientId) ==> req.clientId.value !in h.registry
  {
    match req
    case PostAuthByPhone(phone) => AuthByPhone(reg, phone, newId, o)
    case PostAuthByCode(clientId, code) => AuthByCode(reg, clientId, code, o)
    case PostSendMessage(clientId, toPhone, text) => SendMessage(reg, clientId, toPhone, text, o)
    case PostSendMessageToSelf(clientId, text) => SendMessageToSelf(reg, clientId, text, o)
    case GetClientsRoute => Handled(reg, Clients(Listing(reg)), [])
    case PostDisconnect(clientId) => Disconnect(reg, clientId, o)
  }

  /** One call as it arrives: the request, the uuid it would draw, and the
      service's answers while it is handled. */
  datatype Exchange = Exchange(request: HttpRequest, newId: ClientId, world: Oracle)

  /** Calls handled so far: the registry afterwards, one response per call, and
      everything queued to workers, in order. */
  datatype Served = Served(registry: Registry, responses: seq<Response>, queued: seq<Delivery>)

  /** One handled call as a run of calls. */
  function Once(h: Handled): Served {
    Served(h.registry, [h.response], h.queued)
  }

  /** The calls of `first` followed by those of `second`. */
  function Concat(first: Served, second: Served): Served {
    Served(second.registry, first.responses + second.responses, first.queued + second.queued)
  }

  lemma ConcatAssociates(x: Served, y: Served, z: Served)
    ensures Concat(x, Concat(y, z)) == Concat(Concat(x, y), z)
  {
  }

  /** Calls handled one after another against the shared registry. */
  function Serve(reg: Registry, calls: seq<Exchange>): (s: Served)
    ensures |s.responses| == |calls|
    // each call queues at most one request
    ensures |s.queued| <= |calls|
    decreases |calls|
  {
    if |calls| == 0 then
      Served(reg, [], [])
    else
      var h := Handle(reg, calls[0].request, calls[0].newId, calls[0].world);
      Concat(Once(h), Serve(h.registry, calls[1..]))
  }

  /** One call, then the rest. */
  lemma ServeUnfold(reg: Registry, calls: seq<Exchange>)
    requires |calls| > 0
    ensures var h := Handle(reg, calls[0].request, calls[0].newId, calls[0].world);
            Serve(reg, calls) == Concat(Once(h), Serve(h.registry, calls[1..]))
  {
  }

  /** Serving calls in two parts is serving them in one. */
  lemma {:induction false} ServeAppend(reg: Registry, a: seq<Exchange>, b: seq<Exchange>)
    ensures Serve(reg, a + b) == Concat(Serve(reg, a), Serve(Serve(reg, a).registry, b))
    decreases |a|
  {
    if |a| == 0 {
      assert a + b == b;
      var sb := Serve(reg, b);
      assert [] + sb.responses == sb.responses && [] + sb.queued == sb.queued;
    } else {
      var h := Handle(reg, a[0].request, a[0].newId, a[0].world);
      assert (a + b)[0] == a[0];
      assert (a + b)[1..] == a[1..] + b;
      ServeAppend(h.registry, a[1..], b);
      ServeUnfold(reg, a);
      ServeUnfold(reg, a + b);
      var ta := Serve(h.registry, a[1..]);
      ConcatAssociates(Once(h), ta, Serve(ta.registry, b));
    }
  }

  /** Calls are handled in order, one at a time: the i-th response is what
      `Handle` answers to the i-th call on the registry the first i calls left. */
  lemma {:induction false} ServeNth(reg: Registry, calls: seq<Exchange>, i: nat)
    requires i < |calls|
    ensures Serve(reg, calls).responses[i]
              == Handle(Serve(reg, calls[..i]).registry, calls[i].request, calls[i].newId, calls[i].world).response
  {
    var before := Serve(reg, calls[..i]);
    assert calls == calls[..i] + calls[i..];
    ServeAppend(reg, calls[..i], calls[i..]);
    ServeUnfold(before.registry, calls[i..]);
    assert calls[i..][0] == calls[i];
  }

  /** The i-th call adds exactly its own queued requests to those of the calls before it. */
  lemma {:induction false} ServeNthQueued(reg: Registry, calls: seq<Exchange>, i: nat)
    requires i < |calls|
    ensures Serve(reg, calls[..i + 1]).queued
              == Serve(reg, calls[..i]).queued
                 + Handle(Serve(reg, calls[..i]).registry, calls[i].request, calls[i].newId, calls[i].world).queued
  {
    var before := Serve(reg, calls[..i]);
    var h := Handle(before.registry, calls[i].request, calls[i].newId, calls[i].world);
    assert calls[..i + 1] == calls[..i] + [calls[i]];
    ServeAppend(reg, calls[..i], [calls[i]]);
    ServeUnfold(before.registry, [calls[i]]);
    assert [calls[i]][1..] == [];
    assert h.queued + [] == h.queued;
  }

  /** One call with another new id leaves an unknown id unknown. */
  lemma OneCallKeepsUnknown(reg: Registry, c: Exchange, id: ClientId)
    requires id !in reg && c.newId != id
    ensures var h := Handle(reg, c.request, c.newId, c.world);
            && id !in h.registry
            && (forall d :: d in h.queued ==> d.clientId != id)
            && (TargetsClient(c.request, id) ==> h.response == Status(Err(UnknownClient(c.request))))
  {
  }

  /** A client id that is not registered and never drawn as a new id stays
      unknown: every call naming it is rejected as an unknown client, and no
      request ever reaches a worker under it. */
  lemma {:induction false} NeverAdmittedStaysUnknown(reg: Registry, calls: seq<Exchange>, id: ClientId)
    requires id !in reg
    requires forall i :: 0 <= i < |calls| ==> calls[i].newId != id
    ensures id !in Serve(reg, calls).registry
    ensures forall d :: d in Serve(reg, calls).queued ==> d.clientId != id
    ensures forall i :: 0 <= i < |calls| && TargetsClient(calls[i].request, id) ==>
              Serve(reg, calls).responses[i] == Status(Err(UnknownClient(calls[i].request)))
    decreases |calls|
  {
    if |calls| > 0 {
      var c := calls[0];
      var h := Handle(reg, c.request, c.newId, c.world);
      OneCallKeepsUnknown(reg, c, id);
      ServeUnfold(reg, calls);
      forall i | 0 <= i < |calls[1..]|
        ensures calls[1..][i].newId != id
      {
        assert calls[1..][i] == calls[i + 1];
      }
      NeverAdmittedStaysUnknown(h.registry, calls[1..], id);
      var s := Serve(reg, calls);
      var rest := Serve(h.registry, calls[1..]);
      forall i | 0 <= i < |calls| && TargetsClient(calls[i].request, id)
        ensures s.responses[i] == Status(Err(UnknownClient(calls[i].request)))
      {
        if i > 0 {
          assert calls[i] == calls[1..][i - 1];
          assert s.responses[i] == rest.responses[i - 1];
        }
      }
    }
  }

  /** After a disconnect of `id`, and as long as `id` is not drawn again as a
      new id, every later call naming `id` is rejected as an unknown client. */
  lemma DisconnectedStaysGone(reg: Registry, before: seq<Exchange>, bye: Exchange, after: seq<Exchange>, id: ClientId)
    requires bye.request == PostDisconnect(Given(id)) && id != ""
    requires forall i :: 0 <= i < |after| ==> after[i].newId != id
    ensures forall i :: 0 <= i < |after| && TargetsClient(after[i].request, id) ==>
              Serve(reg, before + [bye] + after).responses[|before| + 1 + i]
                == Status(Err(UnknownClient(after[i].request)))
  {
    var upTo := Serve(reg, before);
    ServeAppend(reg, before, [bye]);
    ServeAppend(upTo.registry, [bye], []);
    var gone := Serve(reg, before + [bye]);
    assert id !in gone.registry by {
      assert [bye] + [] == [bye];
      assert Serve(upTo.registry, [bye]).registry == Handle(upTo.registry, bye.request, bye.newId, bye.world).registry;
    }
    ServeAppend(reg, before + [bye], after);
    NeverAdmittedStaysUnknown(gone.registry, after, id);
  }
}
