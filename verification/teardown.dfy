/**
 The registry as app.py actually keeps it while a session shuts down. The
 'disconnect' branch breaks out of the loop (app.py:133), and the `finally` at
 app.py:142 calls `task_done()`, so the disconnecting caller's `join` returns
 at once. The worker thread then still awaits `client.disconnect()`
 (app.py:146) and closes its event loop before it deletes the entry
 (app.py:153). In that window the entry is registered but nobody reads its
 queue, so a call that passes the membership check puts its request on a dead
 queue and its `join` never returns.

 `Sessions.Dispatch` removes the entry together with the disconnect reply; the
 lemmas here show that it agrees with the as-written table whenever no window
 is open, and that inside the window a later call hangs.
 */
module Teardown {
  import opened Telegram
  import opened Replies
  import opened Sessions
  import opened Routes
  import Worker

  /** A registry entry and whether its worker's loop still takes requests. */
  datatype Entry = Entry(session: Session, listening: bool)

  type Table = map<ClientId, Entry>

  /** The entries whose worker still takes requests: the registry the rest of the model uses. */
  function Live(t: Table): (reg: Registry)
    ensures forall id :: id in reg <==> id in t && t[id].listening
    ensures forall id :: id in reg ==> reg[id] == t[id].session
  {
    map id | id in t && t[id].listening :: t[id].session
  }

  /** No entry is in the window between the disconnect reply and its deletion. */
  predicate Settled(t: Table) {
    forall id :: id in t ==> t[id].listening
  }

  /** What a caller gets back: a response, or nothing because `join` blocks forever. */
  datatype Answer = Responded(response: Response) | Hangs

  /** The table after a call, and the caller's answer. */
  datatype Turn = Turn(table: Table, answer: Answer)

  /** `put` then `join` on the entry's queue, as written. A worker whose loop
      has ended never calls `task_done()` again, so the caller blocks. A
      disconnect ends the loop but leaves the entry in place. */
  function Enqueue(t: Table, id: ClientId, req: Worker.Request, o: Oracle): (u: Turn)
    requires id in t
    ensures !t[id].listening ==> u == Turn(t, Hangs)
    ensures u.table.Keys == t.Keys
    ensures forall k :: k in t && k != id ==> u.table[k] == t[k]
    ensures t[id].listening ==> u.answer.Responded? && u.answer.response.Status?
    ensures t[id].listening ==> (u.table[id].listening <==> !req.DisconnectReq?)
    ensures u.table[id].session.phone == t[id].session.phone
  {
    var e := t[id];
    if !e.listening then
      Turn(t, Hangs)
    else
      var out := Worker.Step(WorkerOf(e.session), e.session.phone, Worker.Job(req, o));
      Turn(t[id := Entry(Session(e.session.phone, out.state.authenticated), out.state.running)],
           Responded(Status(out.reply)))
  }

  /** The worker thread reaching app.py:153 once `client.disconnect()` returned. */
  function Reap(t: Table, id: ClientId): (u: Table)
    requires id in t && !t[id].listening
    ensures id !in u
    ensures Live(u) == Live(t)
  {
    t - {id}
  }

  /** The worker request a well-formed call naming a client queues (app.py:192, 208, 223, 243). */
  function Queued(req: HttpRequest): Worker.Request
    requires FieldsPresent(req) && !req.PostAuthByPhone? && !req.GetClientsRoute?
  {
    match req
    case PostAuthByCode(_, code) => Worker.SignInReq(code.value)
    case PostSendMessage(_, toPhone, text) => Worker.SendMessageReq(toPhone.value, text.value)
    case PostSendMessageToSelf(_, text) => Worker.SendMessageToSelfReq(text.value)
    case PostDisconnect(_) => Worker.DisconnectReq
  }

  /** A well-formed call naming `id`, as written: the membership check
      (app.py:189, 205, 220, 240) asks only whether the entry exists, not
      whether its worker still listens. */
  function CallAsWritten(t: Table, req: HttpRequest, id: ClientId, o: Oracle): (u: Turn)
    requires TargetsClient(req, id)
    ensures id !in t ==> u == Turn(t, Responded(Status(Err(UnknownClient(req)))))
    ensures id in t && !t[id].listening ==> u == Turn(t, Hangs)
    ensures id in t && t[id].listening ==> u.answer.Responded?
    ensures u.table.Keys == t.Keys
  {
    if id !in t then
      Turn(t, Responded(Status(Err(UnknownClient(req)))))
    else
      Enqueue(t, id, Queued(req), o)
  }

  /** With no window open, the as-written call answers what `Routes.Handle`
      answers on the live registry, and leaves the same live registry. */
  lemma CallAgreesWhenSettled(t: Table, req: HttpRequest, id: ClientId, newId: ClientId, o: Oracle)
    requires Settled(t) && TargetsClient(req, id)
    ensures CallAsWritten(t, req, id, o).answer == Responded(Handle(Live(t), req, newId, o).response)
    ensures Live(CallAsWritten(t, req, id, o).table) == Handle(Live(t), req, newId, o).registry
  {
  }

  /** The hang: a session that took a disconnect is still registered until its
      thread reaches app.py:153, and a well-formed call naming it in that window
      gets no answer. Once the entry is reaped, the same call is rejected as an
      unknown client. */
  lemma LateCallHangs(t: Table, id: ClientId, bye: Oracle, req: HttpRequest, o: Oracle)
    requires id in t && t[id].listening
    requires TargetsClient(req, id)
    ensures var d := CallAsWritten(t, PostDisconnect(Given(id)), id, bye);
            && d.answer.Responded?
            && id in d.table
            && CallAsWritten(d.table, req, id, o).answer == Hangs
            && CallAsWritten(Reap(d.table, id), req, id, o).answer == Responded(Status(Err(UnknownClient(req))))
  {
  }

  /** A witness for the hang: an authenticated session "c" is disconnected, and a
      send_message for "c" arrives before the thread has deleted the entry. This
      is the input the README's Findings row names. */
  lemma LateSendExample(o: Oracle)
    ensures var t := map["c" := Entry(Session("+10000000000", true), true)];
            var d := CallAsWritten(t, PostDisconnect(Given("c")), "c", o);
            var send := PostSendMessage(Given("c"), Given("+20000000000"), Given("hi"));
            CallAsWritten(d.table, send, "c", o).answer == Hangs
  {
  }
}
