/** What a handler ends with: the status it sets and the body it sends or the error it throws. */
module Http {
  import opened Wrappers
  import opened Domain

  /** The data part of a JSON body written by a handler. */
  datatype Payload =
    | NoPayload
    | RegisteredUser(id: UserId, email: string)
    | LoggedIn(accessToken: string, user: Claim)
    | Profile(user: Claim)
    | ContactList(contacts: map<ContactId, Contact>)
    | OneContact(id: ContactId, contact: Contact)
    | Total(count: nat)
    | MailError(error: string)

  datatype Response =
      /** `res.status(status).json(...)` written by the handler itself;
          `message` is None for the bodies that carry no message field. */
    | Json(status: int, message: Option<string>, payload: Payload)
      /** `res.status(status); throw new Error(errorMessage)`: the body is written by errorHandler. */
    | Raised(status: int, errorMessage: string)
      /** An exception thrown by the database or by bcrypt with no status set,
          so errorHandler sees the default status code 200. */
    | Unhandled
}
