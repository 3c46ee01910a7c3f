/**
 The messaging service as the application sees it. The client library is
 foreign I/O, so every call it makes is answered by an oracle: a record that
 says, for one queued request, how each call it might issue turns out. The
 calls the application actually issues are logged as `Call` values so that
 contracts can say which calls were (and were not) made.
 */
module Telegram {

  /** The exception classes the application tells apart. The first three are
      the "recipient not found" class caught by the contact-import fallback. */
  datatype ExcKind = PhoneNumberUnoccupied | ValueErr | TypeErr | OtherErr

  /** A raised exception; `message` is what `str(e)` renders. */
  datatype Exc = Exc(kind: ExcKind, message: string)

  predicate IsNotFoundClass(e: Exc) {
    e.kind.PhoneNumberUnoccupied? || e.kind.ValueErr? || e.kind.TypeErr?
  }

  /** How one awaited call ends: it returns, or it raises. */
  datatype Attempt = Succeeds | Raises(exc: Exc)

  /** How `is_user_authorized` ends. */
  datatype Probe = Answers(authorized: bool) | ProbeRaises(exc: Exc)

  /** How the contact import ends; `imported` is the number of users the
      service reports as imported (an empty list is 0). */
  datatype ImportOutcome = Imported(imported: nat) | ImportRaises(exc: Exc)

  /** The answers the service gives while one request is handled. Only the
      fields the request's branch reaches are ever consulted. */
  datatype Oracle = Oracle(
    authorized: Probe,             // client.is_user_authorized()
    codeRequest: Attempt,          // client.send_code_request(phone)
    signIn: Attempt,               // client.sign_in(phone, code)
    lookup: Attempt,               // first client.get_entity(to)
    send: Attempt,                 // first client.send_message(user, text)
    importContacts: ImportOutcome, // client(ImportContactsRequest([contact]))
    retryLookup: Attempt,          // second client.get_entity(to)
    retrySend: Attempt,            // second client.send_message(user, text)
    getMe: Attempt,                // client.get_me()
    sendToSelf: Attempt,           // client.send_message(me.id, text)
    logOut: Attempt                // client.log_out()
  )

  /** The receiver of a `send_message` call. */
  datatype Peer = User(phone: string) | Me

  /** One call into the client library. */
  datatype Call =
    | Connect
    | IsUserAuthorized
    | SendCode(phone: string)
    | SignIn(phone: string, code: string)
    | GetEntity(phone: string)
    | ImportContact(phone: string)
    | SendText(peer: Peer, text: string)
    | GetMe
    | LogOut
    | Disconnect
}
