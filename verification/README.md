# Telegram session gateway: a Dafny model of the session workers

The application in `app.py` is a small Flask service. Each caller that posts a
phone number gets a *client*: an entry in the process-wide `clients_data`
registry and a worker thread that owns one Telegram client. Each HTTP call for
that client is put on the worker's queue, and the caller waits (`join`) until
the worker has recorded a result. The worker handles its queue one request at a
time. It keeps one piece of state, the `is_authenticated` flag, and stops after
a `disconnect` request. On leaving, it deletes its registry entry.

This project models that core as pure functions over immutable data:

- `telegram.dfy` (module `Telegram`): the Telegram client library is foreign
  I/O. Each request is paired with an `Oracle` record that says how every
  library call made while handling it turns out: whether it returns or raises,
  and with which exception class and message. Calls the model makes are logged
  as `Call` values, so contracts can say which calls happened and which did not.
- `replies.dfy` (module `Replies`): the `{isOK, error}` result and the
  application's fixed error texts.
- `actions.dfy` (module `Actions`): the coroutines `send_code_request`,
  `sign_in`, `send_message` (the two-phase send with contact import),
  `send_message_to_self` and `disconnect`.
- `worker.dfy` (module `Worker`): one loop iteration as `Step`. `Run` is the
  loop as a fold over the queue contents, and `ProcessRequests` is the same loop
  written as a `while`, proved equal to `Run`. `Lifetime` is the whole thread,
  from connect to disconnect.
- `sessions.dfy` (module `Sessions`): the `clients_data` registry as a
  `map<ClientId, Session>`. It covers the listing, handing one request to a
  session (`put` plus `join`), and the worker thread removing its own entry.
- `routes.dfy` (module `Routes`): the route handlers, with field validation and
  the unknown-client rejections. `Handle` dispatches one HTTP call and `Serve`
  folds it over a sequence of calls.
- `teardown.dfy` (module `Teardown`): the registry as app.py keeps it while a
  session shuts down. The entry stays registered after the disconnect reply,
  until the worker thread deletes it.

Facts about app.py that shape the model:

- The worker's only state is the `is_authenticated` flag and whether its loop
  runs. There is no separate code-requested or terminated state.
- `sign_in` is accepted in every state, including after a successful sign-in.
- An already-authorized `send_code_request` answers success. It does not set
  `is_authenticated` (app.py:110).
- Once the worker has deleted its entry, a request naming the session gets
  "Client not registered …", or "Client not found" from `/disconnect`.
- The not-found class is PhoneNumberUnoccupiedError, ValueError and TypeError.
  It is caught around both the first lookup and the first send, so a
  ValueError from the first `send_message` also triggers the contact import.

## Model

| member | source | states |
|---|---|---|
| Actions.RequestCode | app.py:18-26 | the code request never raises out of the helper; the reply is success exactly when the service accepted the request, otherwise it carries the service's error message; the only call made is the code request |
| Actions.SignInWithCode | app.py:28-35 | the sign-in never raises out of the helper; the reply is success exactly when the sign-in call succeeds, otherwise it carries its message; the only call made is the sign-in |
| Actions.SendMessage | app.py:37-62 | the first call is always the recipient lookup; a first-attempt success gives success with exactly one lookup and one send and no import; an empty import gives 'Contact not imported' with no retry; a failing retry is final and reported as its message; the reply is success exactly when the message was delivered directly or after a not-found failure, a non-empty import and a clean retry; an exception escapes to the loop exactly when the first failure is outside the not-found class or the import itself raises |
| Actions.SendMessageAttempts | app.py:37-62 | the import happens exactly once after a first-attempt failure of the not-found class and never otherwise; the lookup runs twice only after a non-empty import, otherwise once; the send is attempted at most twice, so there is never a third attempt |
| Actions.SendMessageToSelf | app.py:65-74 | never raises out of the helper; success exactly when both `get_me` and the send succeed; a failing `get_me` stops before any send and its message is the error; a failing send after `get_me` gives the send's message |
| Actions.LogOutSession | app.py:76-83 | the log-out never raises out of the helper; success exactly when the log-out succeeds, otherwise its message; the only call is the log-out |
| Worker.HandleSendCode | app.py:106-110 | the worker state is unchanged; an already-authorized client is answered with success and no code request is made; a code request is made exactly when the client is not authorized; the reply is success exactly when the code was accepted; an exception from the authorization check becomes its message |
| Worker.HandleSignIn | app.py:112-117 | the flag becomes true exactly when the sign-in call succeeds and otherwise keeps its prior value; the sign-in helper's reply is returned unchanged; the loop keeps running |
| Worker.HandleSendMessage | app.py:119-123 | unauthenticated: 'Not authenticated' with no external call; the state never changes; success exactly when authenticated and the message was delivered; an error the helper returns ('Contact not imported', the retry's message) is the reply; an exception escaping the send becomes its message |
| Worker.HandleSendMessageToSelf | app.py:125-129 | unauthenticated: 'Not authenticated' with no external call; the state never changes; success exactly when authenticated and both `get_me` and the send succeed; otherwise the helper's reply, carrying the message of `get_me` or of the send |
| Worker.HandleDisconnect | app.py:131-133 | the loop stops whether the log-out succeeded or not; the reply is the log-out result; the flag is unchanged |
| Worker.Step | app.py:103-142 | only a disconnect stops the loop; the flag is raised by a successful sign-in and by nothing else, and is never lowered; an unknown request type gives 'Invalid request type' with no call and no state change |
| Worker.Run | app.py:102-142 | at most one reply per queued request; a stopped worker takes nothing; if the loop is still running, every request was answered and none was a disconnect; if it stopped, the last request taken was the first disconnect in the queue |
| Worker.RunAppend | app.py:102-103 | taking the queue in two parts is the same as taking it whole: the loop's state carries over and replies and calls concatenate in order |
| Worker.StopsAfterDisconnect | app.py:131-133 | requests queued behind a processed disconnect are never taken and change nothing |
| Worker.RepliesInOrder | app.py:102-142 | FIFO, one at a time: the i-th reply is what one step answers to the i-th request, in the state the first i requests left behind, with the worker still running at that point |
| Worker.StopsAtFirstDisconnect | app.py:131-142 | with the first disconnect at position k, exactly k+1 requests are answered; the worker is stopped; the k-th reply is the log-out result, successful or not |
| Worker.AuthenticatedHistory | app.py:91-117 | after the loop the flag is true exactly when it already was or some sign-in among the requests taken succeeded |
| Worker.NoOutboundBeforeSignIn | app.py:119-129 | until a sign-in succeeds, no request makes the worker look anyone up, import a contact, fetch its own account or send a message |
| Worker.ProcessRequests | app.py:102-142 | the imperative loop yields the same final state, replies and calls as the fold `Run` |
| Worker.Lifetime | app.py:94-147 | the thread first connects; a failed connect leaves it with no reply to any request and disconnects the client; otherwise it leaves exactly when a disconnect request is taken, and its replies are those of the loop from a fresh unauthenticated state; on leaving, the last call is the client disconnect |
| Sessions.Listing | app.py:230-231 | every listed element names a registered client with that client's phone number, and every registered client is listed |
| Sessions.ListingOnePerEntry | app.py:230-231 | the listing has exactly one element per registry entry |
| Sessions.GetClients | app.py:228-232 | the returned list holds each registered client exactly once with its phone number, and nothing else |
| Sessions.Dispatch | app.py:141-153 | handing a request to a registered session returns the worker's reply for the session's own state; a disconnect removes the entry; any other request keeps the entry and its phone; the flag is raised only by a successful sign-in; no other entry is touched |
| Sessions.DispatchAll | app.py:173-174 | repeated `put` then `join` on one session answers at most one reply per request |
| Sessions.DispatchAllIsRun | app.py:102-153 | dispatching requests one at a time through the registry gives the same replies as the worker loop; the entry stays registered exactly while that loop runs, with the loop's flag; no other entry is touched |
| Sessions.WorkerThread | app.py:85-153 | the worker thread deletes its own entry exactly when it leaves (a failed connect or a disconnect request); a failed connect answers no request; otherwise the replies are the loop's; other entries are untouched |
| Routes.AuthByPhone | app.py:157-180 | a missing or empty phone is rejected with the registry unchanged and nothing queued; otherwise a code request is queued for the new id; for a new id the entry is kept, with the given phone and unauthenticated, exactly when the code request succeeded, and the response is the new client id; on failure the entry is deleted again and the error is returned: the message of the failed authorization check or code request |
| Routes.AuthByCode | app.py:182-195 | missing or empty id or code: validation error, registry unchanged, nothing queued; unknown id: 'Client not registered …', nothing queued; otherwise one sign-in is queued, the flag becomes true exactly when the sign-in succeeds, and the response is success exactly then; a failed sign-in answers its message |
| Routes.SendMessage | app.py:197-211 | the registry never changes; missing fields or an unknown id are rejected with nothing queued; for a known id one send is queued; an unauthenticated session answers 'Not authenticated'; success exactly when authenticated and delivered; otherwise the worker's error: 'Contact not imported' after an empty import, or the message of the failure |
| Routes.SendMessageToSelf | app.py:213-226 | the registry never changes; missing fields or an unknown id are rejected with nothing queued; an unauthenticated session answers 'Not authenticated'; success exactly when authenticated and both `get_me` and the send succeed; otherwise the helper's error reply, such as the message of `get_me` |
| Routes.Disconnect | app.py:234-246 | a missing id is rejected; an unknown id gets 'Client not found' with nothing queued; a known id gets one disconnect queued and is removed from the registry whether or not the log-out succeeded; success exactly when the log-out succeeded, otherwise its message. The removal is immediate only in this model (see Findings) |
| Routes.Handle | app.py:155-246 | only the addressed entry can change; a missing field is rejected before the registry or any queue is touched; a well-formed call naming an unregistered id is rejected with the route's unknown-client error; at most one request is queued, and only to the addressed session; a new entry appears only through a successful `auth_by_phone`; a disconnect leaves the named id unregistered, which in app.py holds only once the worker reaches line 153 (see Findings) |
| Routes.Serve | app.py:155-246 | calls handled one after another against the shared registry get exactly one response each, and queue at most as many requests in total as there are calls |
| Routes.ServeNth | app.py:155-246 | calls are handled in order, one at a time: the i-th response is what one call of `Handle` answers to the i-th call, on the registry the first i calls left behind |
| Routes.ServeNthQueued | app.py:155-246 | the i-th call adds exactly the requests its own handling queued, after those of the calls before it |
| Routes.NeverAdmittedStaysUnknown | app.py:182-246 | an id that is not registered and never issued as a new id stays unregistered; nothing is ever queued under it; every well-formed call naming it is rejected as an unknown client |
| Routes.DisconnectedStaysGone | app.py:234-246 | with the entry removed together with the disconnect reply, every later well-formed call naming the id is rejected as an unknown client, as long as the id is not issued again. app.py guarantees this only after its worker reaches line 153 (see Findings) |
| Teardown.Enqueue | app.py:131-153 | `put` then `join` as written: a live worker answers and stays live unless the request is a disconnect; a disconnect ends the loop but leaves the entry; a queue whose loop has ended never answers |
| Teardown.Reap | app.py:149-153 | the worker thread deleting its own entry after its loop ended: the id is no longer registered, and the live registry is unchanged, since that worker already answered its last request |
| Teardown.CallAsWritten | app.py:182-246 | the membership check only asks whether the entry exists: an absent id is rejected as unknown, an entry whose loop has ended makes the call hang |
| Teardown.CallAgreesWhenSettled | app.py:182-246 | with no entry in the shutdown window, the as-written call answers what `Routes.Handle` answers and leaves the same live registry |
| Teardown.LateCallHangs | app.py:131-153 | after a disconnect reply the entry is still present; a well-formed call naming it in that window hangs; once the entry is deleted the same call is rejected as unknown |

## Left out

- Threads, `Queue.put`/`get`/`join`/`task_done` blocking, and the asyncio event loop setup and teardown (app.py:86-87, 149-152, 170). The queue is a sequence. `put` followed by `join` is one step of the worker on the session's state.
- The Telegram client library (`connect`, `is_user_authorized`, `send_code_request`, `sign_in`, `get_entity`, `send_message`, `ImportContactsRequest`, `get_me`, `log_out`, `disconnect`). It is foreign I/O. Its outcomes come from the `Oracle` record, and each call is only logged.
- Flask routing and JSON handling. A body field is either absent/null or a string. Non-string JSON values and a request without a JSON body are not modelled.
- `uuid.uuid4()`. The new id is a parameter of `auth_by_phone`. If it collides with an existing entry, the existing session is reused (app.py:165).
- Logging, `config` credential loading, and the `/ping` route. None of them touches session state.
- Routes.AuthByPhone: assumes the worker's connect succeeded. When connect fails (app.py:99), the worker leaves without answering the queued request, so the caller's `join` never returns. Only `Sessions.WorkerThread` and `Worker.Lifetime` model that exit, and as an exit rather than a hang.
- After a failed code request, `auth_by_phone` deletes the entry (app.py:179), but the worker thread stays alive and blocked on its queue. The model discards it with the entry.
- Sessions.Dispatch: treats the worker's deletion of its entry (app.py:153) as happening together with the disconnect reply. In the code, `join` returns before the deletion. A call arriving in between still finds the entry, and its `join` never returns. Module `Teardown` models that window (see Findings).
- Routes.Disconnect: the entry is gone right after the reply only in this model. In app.py it stays until the worker thread reaches line 153.
- Routes.DisconnectedStaysGone: holds for app.py only after the worker thread has reached line 153. A call in the window before that hangs (`Teardown.LateCallHangs`).
- A call that passes the membership check just before the worker runs line 153 then fails on `clients_data[client_id]` with a KeyError (app.py:209). That is not modelled.
- An exception raised by the final `client.disconnect()` (app.py:146), and non-`Exception` errors such as task cancellation, are not modelled.
- Queued requests are a closed datatype. A request dictionary that lacks a field its branch reads, and would raise `KeyError`, cannot be built. The handlers never build one.
- Sessions.GetClients: returns the entries in an unspecified order, while `get_clients` uses dict insertion order.

## Findings

| source | as written | input that shows it | evidently intended | confidence | as-written member | corrected member |
|---|---|---|---|---|---|---|
| app.py:131-153 | the disconnect reply is released by `task_done()` at line 142, and the entry is deleted only at line 153, after `await client.disconnect()`; route handlers check only that the entry exists | session "c" is disconnected; before its thread reaches line 153, `/send_message` with client_id "c", to_phone "+20000000000" and text "hi" passes the check at line 205, puts onto a queue nobody reads and blocks in `join` forever | a call after the disconnect reply is rejected as an unknown client | not executed; medium, since it depends on thread timing | Teardown.LateCallHangs | Routes.DisconnectedStaysGone |
