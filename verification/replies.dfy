/**
 The `{isOK, error}` dictionaries every operation answers with, and the fixed
 error texts the application produces itself.
 */
module Replies {

  /** `{'isOK': True}` or `{'isOK': False, 'error': error}`. */
  datatype Reply = Ok | Err(error: string)

  // Produced by the worker loop (app.py:121, 127, 136) and the send fallback (app.py:53).
  const NotAuthenticated: string := "Not authenticated"
  const InvalidRequestType: string := "Invalid request type"
  const ContactNotImported: string := "Contact not imported"

  // Produced by the HTTP handlers (app.py:161, 187, 190, 203, 218, 238, 241).
  const PhoneRequired: string := "Phone number is required"
  const IdAndCodeRequired: string := "Client ID and code are required"
  const NotRegistered: string := "Client not registered (send code request first)"
  const IdRecipientAndTextRequired: string := "Client ID, recipient phone number, and text are required"
  const IdAndTextRequired: string := "Client ID and text are required"
  const IdRequired: string := "Client ID is required"
  const NotFound: string := "Client not found"
}
