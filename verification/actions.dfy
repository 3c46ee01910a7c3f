/**
 The coroutines the worker awaits for each request kind (app.py:18-83). Each
 is modelled as a pure function of the phone numbers and texts involved and
 of the oracle, yielding how the coroutine ends and the client calls it made.
 */
module Actions {
  import opened Telegram
  import opened Replies

  /** How a coroutine ends: it returns a reply, or an exception escapes it. */
  datatype Completion = Returned(reply: Reply) | Raised(exc: Exc)

  /** A coroutine's completion together with the client calls it issued, in order. */
  datatype Effect = Effect(completion: Completion, calls: seq<Call>)

  /** A call wrapped in `except Exception as e: return {'isOK': False, 'error': str(e)}`. */
  function Guard(a: Attempt): Reply {
    if a.Succeeds? then Ok else Err(a.exc.message)
  }

  /** Two awaited calls in sequence: the first failure ends the sequence. */
  function Then(first: Attempt, second: Attempt): Attempt {
    if first.Raises? then first else second
  }

  /** The calls of one lookup-and-send attempt: the send is only reached when the lookup returned. */
  function AttemptCalls(to: string, text: string, lookup: Attempt): seq<Call> {
    if lookup.Succeeds? then [GetEntity(to), SendText(User(to), text)] else [GetEntity(to)]
  }

  /** `send_code_request` (app.py:18-26): every failure is caught and reported. */
  function RequestCode(phone: string, o: Oracle): (e: Effect)
    ensures e.calls == [SendCode(phone)]
    ensures e.completion.Returned?
    ensures e.completion.reply.Ok? <==> o.codeRequest.Succeeds?
    ensures o.codeRequest.Raises? ==> e.completion.reply.error == o.codeRequest.exc.message
  {
    Effect(Returned(Guard(o.codeRequest)), [SendCode(phone)])
  }

  /** `sign_in` (app.py:28-35): every failure is caught and reported. */
  function SignInWithCode(phone: string, code: string, o: Oracle): (e: Effect)
    ensures e.calls == [SignIn(phone, code)]
    ensures e.completion.Returned?
    ensures e.completion.reply.Ok? <==> o.signIn.Succeeds?
    ensures o.signIn.Raises? ==> e.completion.reply.error == o.signIn.exc.message
  {
    Effect(Returned(Guard(o.signIn)), [SignIn(phone, code)])
  }

  /** The first lookup-and-send attempt failed with an exception of the
      not-found class, which is what sends the worker down the import path. */
  predicate FirstFailsNotFound(o: Oracle) {
    var first := Then(o.lookup, o.send);
    first.Raises? && IsNotFoundClass(first.exc)
  }

  /** The contact import ran and reported at least one imported user. */
  predicate ImportSucceeded(o: Oracle) {
    o.importContacts.Imported? && o.importContacts.imported > 0
  }

  /** When a message reaches its recipient, stated without reference to the
      order of calls: directly, or after a not-found failure, a non-empty import
      and a clean retry. */
  predicate Delivered(o: Oracle) {
    || (o.lookup.Succeeds? && o.send.Succeeds?)
    || (FirstFailsNotFound(o) && ImportSucceeded(o) && o.retryLookup.Succeeds? && o.retrySend.Succeeds?)
  }

  /** `send_message` (app.py:37-62): one attempt; on a not-found-class failure
      one contact import and, if something was imported, exactly one retry. */
  function SendMessage(to: string, text: string, o: Oracle): (e: Effect)
    ensures |e.calls| > 0 && e.calls[0] == GetEntity(to)
    // a first-attempt success neither imports nor retries
    ensures o.lookup.Succeeds? && o.send.Succeeds? ==>
              e == Effect(Returned(Ok), [GetEntity(to), SendText(User(to), text)])
    // an empty import ends the operation with no retry
    ensures FirstFailsNotFound(o) && o.importContacts == Imported(0) ==>
              e.completion == Returned(Err(ContactNotImported))
    // a failure of the retry is final and reported as str(e)
    ensures FirstFailsNotFound(o) && ImportSucceeded(o) && Then(o.retryLookup, o.retrySend).Raises? ==>
              e.completion == Returned(Err(Then(o.retryLookup, o.retrySend).exc.message))
    ensures e.completion == Returned(Ok) <==> Delivered(o)
    // what escapes to the worker loop: an other-class first failure, or a failing import
    ensures e.completion.Raised? <==>
              || (Then(o.lookup, o.send).Raises? && !IsNotFoundClass(Then(o.lookup, o.send).exc))
              || (FirstFailsNotFound(o) && o.importContacts.ImportRaises?)
    ensures e.completion.Raised? && !FirstFailsNotFound(o) ==> e.completion.exc == Then(o.lookup, o.send).exc
    ensures e.completion.Raised? && FirstFailsNotFound(o) ==> e.completion.exc == o.importContacts.exc
  {
    var first := Then(o.lookup, o.send);
    var tried := AttemptCalls(to, text, o.lookup);
    if first.Succeeds? then
      Effect(Returned(Ok), tried)
    else if !IsNotFoundClass(first.exc) then
      Effect(Raised(first.exc), tried)
    else
      var imported := tried + [ImportContact(to)];
      match o.importContacts
      case ImportRaises(exc) => Effect(Raised(exc), imported)
      case Imported(n) =>
        if n == 0 then
          Effect(Returned(Err(ContactNotImported)), imported)
        else
          Effect(Returned(Guard(Then(o.retryLookup, o.retrySend))),
                 imported + AttemptCalls(to, text, o.retryLookup))
  }

  /** Counting the calls of `send_message`: the lookup runs once, or twice when
      a not-found failure was followed by a non-empty import; the import runs at
      most once, and only after a not-found failure; the send is tried at most twice. */
  lemma SendMessageAttempts(to: string, text: string, o: Oracle)
    ensures multiset(SendMessage(to, text, o).calls)[GetEntity(to)]
              == if FirstFailsNotFound(o) && ImportSucceeded(o) then 2 else 1
    ensures multiset(SendMessage(to, text, o).calls)[ImportContact(to)]
              == if FirstFailsNotFound(o) then 1 else 0
    ensures multiset(SendMessage(to, text, o).calls)[SendText(User(to), text)] <= 2
  {
  }

  /** `send_message_to_self` (app.py:65-74): look the account up, then send to it;
      every failure is caught and reported. */
  function SendMessageToSelf(text: string, o: Oracle): (e: Effect)
    ensures e.completion.Returned?
    ensures e.completion.reply.Ok? <==> o.getMe.Succeeds? && o.sendToSelf.Succeeds?
    ensures o.getMe.Raises? ==> e.calls == [GetMe] && e.completion.reply.error == o.getMe.exc.message
    ensures o.getMe.Succeeds? ==> e.calls == [GetMe, SendText(Me, text)]
    ensures o.getMe.Succeeds? && o.sendToSelf.Raises? ==> e.completion.reply == Err(o.sendToSelf.exc.message)
  {
    Effect(Returned(Guard(Then(o.getMe, o.sendToSelf))),
           [GetMe] + (if o.getMe.Succeeds? then [SendText(Me, text)] else []))
  }

  /** `disconnect` (app.py:76-83): log out; a failure is caught and reported. */
  function LogOutSession(o: Oracle): (e: Effect)
    ensures e.calls == [LogOut]
    ensures e.completion.Returned?
    ensures e.completion.reply.Ok? <==> o.logOut.Succeeds?
    ensures o.logOut.Raises? ==> e.completion.reply.error == o.logOut.exc.message
  {
    Effect(Returned(Guard(o.logOut)), [LogOut])
  }
}
