/**
 * The shapes of the stored documents (models/userModel.js, models/contactModel.js)
 * and of the identity claim carried by an access token.
 */
module Domain {
  import opened Wrappers

  /** Document ids, compared by their string form as the handlers do. */
  type UserId = string
  type ContactId = string

  /** The token taken from a header: `header.split(" ")[1]`, which may be undefined. */
  type Token = Option<string>

  /** The `user` claim signed into an access token and attached as `req.user`. */
  datatype Claim = Claim(id: UserId, username: string, email: string)

  /** A stored user; `password` holds the bcrypt hash, never the plain text. */
  datatype User = User(username: string, email: string, password: string)

  /** A stored contact; `owner` is the `user_id` field. */
  datatype Contact = Contact(owner: UserId, name: string, email: string, phone: string)

  /** JavaScript truthiness of an optional string: `undefined` and `""` are falsy. */
  predicate Truthy(field: Option<string>)
  {
    field.Some? && field.value != ""
  }
}
