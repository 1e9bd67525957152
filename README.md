# Contact management API: authentication, sessions and ownership

This project models the logic of a small Express backend for user accounts
and their personal contact lists:

- the process-wide token blacklist that logout writes to (`Blacklist`);
- the token gate that every protected route runs first (`Auth`). It picks
  the `Authorization` header, requires the `Bearer` prefix, turns away
  blacklisted tokens before any signature check, asks the verifier, and
  attaches the decoded user claim to the request;
- the user handlers (`Users`): register, login, profile update, logout, and
  the in-memory password-reset ticket store keyed by email;
- the contact handlers (`Contacts`): list, create, read, update, delete,
  search, count and bulk delete. Each is scoped to the caller's id; the
  three that look a contact up by id (read, update, delete) answer 404
  before 403, and the others never answer 403;
- the error translator (`Errors`), which maps a status code to a title.

Supporting modules:

- `Domain` holds the document shapes from the Mongoose schemas.
- `Http` holds the handler outcome: a JSON body the handler writes itself,
  an error it raises after setting a status, or an exception that no status
  was set for.
- `JsString` models `split(" ")`, `join(" ")`, `startsWith` and decimal
  rendering.

The database collections are maps that the handler methods reassign:
`UserController.users` and `ContactController.contacts`. The module-level
`blacklist` array and `resetTokenStore` object are class fields that the
methods update in place. The model keeps the code's own quirks:

- `startsWith("Bearer")` needs no space after the word.
- The token is the second space-separated field, so it can be `undefined`.
  The gate passes such a token to `jwt.verify`, which refuses a missing or
  empty token, so the gate never lets it through. Only `logoutUser` run
  without the gate in front of it could blacklist `undefined`; after that,
  every prefixed header without a space would be refused as revoked.
- Registration accepts passwords of 4 to 7 characters, although its
  message asks for 8.
- All three ticket failures share one message. A ticket whose `expires`
  equals `now` is still accepted.
- Password reset does not check the length of the new password.
- `updateContact` writes the whole body, `user_id` included. It also does
  not repeat the duplicate check that `createContact` does.

External services are parameters:

- `jwt.verify` is a parameter `verify: string -> Option<Claim>` applied to
  a token that is present and non-empty. jsonwebtoken's own refusal of a
  missing or empty token ("jwt must be provided") is written out in
  `Auth.Gate`. `jwt.sign` is a parameter over `TokenClaims`.
- bcrypt is a parameter `hash`. Comparing a password means its hash equals
  the stored one.
- `Date.now()`, the random reset ticket and the outcome of sending the
  mail are parameters.
- Ids that the database generates come in as `newId`, which must not be in
  use yet.
- Search regex matching is a parameter `matches(pattern, value)`.

The MongoDB unique index on `email` is the `Valid()` invariant of
`UserController`. Every user method keeps it. When an update would give a
user an email that another user already has, the save fails. That outcome
is `Unhandled`: the status is still Express's default 200, so the error
translator writes no body.

## Model

| member | source | states |
|---|---|---|
| `Blacklist.TokenBlacklist.constructor` | config/blacklist.js:1 | the blacklist starts empty, so no token is blacklisted |
| `Blacklist.TokenBlacklist.AddToken` | config/blacklist.js:4-6 | appends the token; afterwards the blacklisted set is the old set plus that token: it is now in, every other answer is unchanged, nothing is removed |
| `Blacklist.TokenBlacklist.IsTokenBlacklisted` | config/blacklist.js:7-9 | answers true exactly for tokens in the array, and changes nothing |
| `Blacklist.AddTwiceAsOnce` | config/blacklist.js:4-9 | adding a token twice gives the same membership answers as adding it once, though the array is longer |
| `JsString.Split` | middleware/validateTokenHandler.js:11 | `split(" ")` gives one field more than there are spaces, and no field contains a space |
| `JsString.SplitThenJoin` | middleware/validateTokenHandler.js:11 | joining the fields of a split with single spaces gives back the header |
| `JsString.JoinThenSplit` | middleware/validateTokenHandler.js:11 | splitting a space-joined list of space-free fields gives back the list |
| `Auth.ValidateToken` | middleware/validateTokenHandler.js:5-30 | the gate's outcome is the ordered decision `Gate` over the live blacklist; `req.user` is set to the decoded claim on success only and left unset on every 401 |
| `Auth.SelectHeader` | middleware/validateTokenHandler.js:7 | the header used is `Authorization` when that is truthy, otherwise `authorization` |
| `Auth.HasBearerPrefix` | middleware/validateTokenHandler.js:10 | the header is present, non-empty and its first six characters are `Bearer`; no space is required after them |
| `Auth.TokenOf` | middleware/validateTokenHandler.js:11 | the token is `undefined` exactly when the header contains no space, and a token never contains a space |
| `Auth.Gate` | middleware/validateTokenHandler.js:10-29 | each call ends in `next` or in one 401 refusal; `next` is reached only with the prefix, a token that is not blacklisted, present and non-empty, and a claim the verifier decodes from it |
| `Auth.GateAccepts` | middleware/validateTokenHandler.js:10-25 | `next` is reached iff the selected header has the prefix, its token is not blacklisted, is present and non-empty, and the verifier decodes it |
| `Auth.AcceptedHeaderHasToken` | middleware/validateTokenHandler.js:10-25 | no header without a space is ever let through, whatever the blacklist and the verifier |
| `Auth.MissingPrefixFirst` | middleware/validateTokenHandler.js:7-29 | a missing header (after the `Authorization` → `authorization` fallback) or one without the prefix gives 401 "token is missing" whatever the blacklist and verifier |
| `Auth.UnverifiedTokenRefused` | middleware/validateTokenHandler.js:19-22 | with the prefix present and the token not blacklisted, an undefined or empty token, or one the verifier refuses, gets 401 "User is not authorized" |
| `Auth.BlacklistBeforeVerify` | middleware/validateTokenHandler.js:14-19 | a blacklisted token gives 401 "Token is invalid, please log in again!" whatever any verifier says |
| `Auth.BearerTokenRoundTrip` | middleware/validateTokenHandler.js:10-11 | a header `Bearer <token>` passes the prefix test and yields exactly that token |
| `Auth.RevokedAfterLogout` | middleware/validateTokenHandler.js:14-24 | a verifier-accepted token passes the gate with its claim, and after it is appended to the blacklist the same header is refused as revoked |
| `Auth.UndefinedTokenRevoked` | middleware/validateTokenHandler.js:11-16 | if `undefined` is ever blacklisted (only an unguarded logout could do it), every prefixed header without a space is refused as revoked |
| `Users.UserController.constructor` | controllers/userController.js:140 | the reset ticket store starts empty and emails are unique |
| `Users.UserController.RegisterUser` | controllers/userController.js:13-45 | 400 in the order: missing field, taken email, password shorter than 4; otherwise one user is added with the hash of the password, and emails stay unique |
| `Users.UserController.LoginUser` | controllers/userController.js:50-81 | 400 without both fields; 200 iff a user with that email has the hash of the password, with a token signed over `{id, username, email}` for "30m"; 401 otherwise |
| `Users.UserController.UpdateUser` | controllers/userController.js:100-119 | 404 when the caller's document is gone; a falsy username or email keeps the stored value; the password is untouched; an email already held by another user is refused by the unique index and nothing changes |
| `Users.UserController.LogoutUser` | controllers/userController.js:124-138 | a `Bearer`-prefixed header appends its second field to the blacklist; any other header gives 400 and leaves the blacklist unchanged |
| `Users.UserController.RequestPasswordReset` | controllers/userController.js:145-189 | unknown email: 404 and the store is unchanged; known email: its entry alone is overwritten with the new ticket expiring at `now + 3600000`, before the mail outcome decides 200 or 500 |
| `Users.UserController.ResetPassword` | controllers/userController.js:194-223 | 400 on differing passwords before the store is read; 400 on a missing, different or expired ticket; 404 keeps the ticket; success stores the hash of the new password for that user and deletes the ticket |
| `Users.LogoutAfterGate` | controllers/userController.js:126-129 | behind the gate, logout always finds the prefix and blacklists the token the gate let through, which is never `undefined` or empty and which the gate then refuses |
| `Users.ShortPasswordAccepted` | controllers/userController.js:27-30 | passwords of length 4 to 7 pass registration despite the message asking for 8 |
| `Users.AddKeepsEmailsUnique` | controllers/userController.js:21-34 | adding a user whose email is free keeps emails unique |
| `Users.ReplayRejected` | controllers/userController.js:220 | after a successful reset deletes the entry, the same ticket is refused at any time |
| `Users.LatestTicketOnly` | controllers/userController.js:158-161 | a new request for an email makes any earlier, different ticket for it unusable |
| `Users.TicketWindow` | controllers/userController.js:204 | a fresh ticket is accepted up to and including `issuedAt + 3600000` and refused after |
| `Users.OtherTicketsUntouched` | controllers/userController.js:158 | writing one email's ticket leaves every other email's ticket decision unchanged |
| `Contacts.ContactController.GetContacts` | controllers/contactController.js:6-15 | returns exactly the caller's contacts, unchanged; 404 iff the caller owns none |
| `Contacts.ContactController.CreateContact` | controllers/contactController.js:20-46 | 400 with nothing added on a missing field or when one of the caller's contacts has the same email or phone; otherwise exactly one contact owned by the caller is added; per-owner distinctness is kept |
| `Contacts.ContactController.GetContact` | controllers/contactController.js:51-65 | 404 for an unknown id, then 403 for another owner's contact, else the contact |
| `Contacts.ContactController.UpdateContact` | controllers/contactController.js:70-97 | 400 before any lookup when name, email and phone are all falsy; then 404, then 403; else the body's fields, `user_id` included, overwrite that contact only |
| `Contacts.ContactController.DeleteContact` | controllers/contactController.js:102-114 | 404, then 403; on success exactly that id is removed and all other contacts are unchanged |
| `Contacts.ContactController.BuildSearchQuery` | controllers/contactController.js:122-135 | the query is scoped to the caller and holds exactly one clause per truthy term, in the order name, email, phone; it is empty iff no term is given |
| `Contacts.ContactController.SearchContacts` | controllers/contactController.js:119-143 | 400 when no term is given; otherwise exactly the caller's contacts that some given term matches |
| `Contacts.QueryMeansHit` | controllers/contactController.js:128-141 | the built `$or` query selects exactly the contacts that belong to the caller and match a given term |
| `Contacts.ContactController.GetContactCount` | controllers/contactController.js:149-152 | the total is the number of the caller's contacts, and zero exactly when the caller owns none |
| `Contacts.NoneOwnedIffZero` | controllers/contactController.js:7-10 | an owner's count is zero iff no contact belongs to them, so count 0 coincides with the 404 of the listing |
| `Contacts.ContactController.BulkDeleteContacts` | controllers/contactController.js:157-168 | 400 unless `ids` is a non-empty array; else exactly the listed contacts the caller owns are removed and the message reports the number removed |
| `Contacts.BulkDeleteScoped` | controllers/contactController.js:163-166 | bulk delete lowers the caller's count by the number removed and leaves every other owner's contacts as they were |
| `Contacts.CountAfterCreate` | controllers/contactController.js:36 | a created contact adds one to its owner's count and nothing to anyone else's |
| `Contacts.CountAfterDelete` | controllers/contactController.js:112 | a deleted contact takes one from its owner's count and nothing from anyone else's |
| `Contacts.CreateKeepsDistinct` | controllers/contactController.js:27-36 | the duplicate check keeps each owner's contact emails and phones distinct |
| `Contacts.UpdateMayDuplicate` | controllers/contactController.js:87-91 | in any store, patching a contact's email to that of another contact of the same owner breaks per-owner distinctness |
| `Errors.EffectiveStatus` | middleware/errorHandler.js:4 | the effective status is the response status when it is non-zero, else 500 |
| `Errors.KnownTitles` | middleware/errorHandler.js:5-20 | with distinct codes, each of the five codes gets its fixed title ("Validation Failed", "Not Found", "Unauthorized", "forbidden", "Server") |
| `Errors.Title` | middleware/errorHandler.js:5-23 | a title exists iff the status is one of the five codes, and it is one of the five fixed titles |
| `Errors.ErrorHandler` | middleware/errorHandler.js:3-25 | a body is written iff the effective status is one of the five codes; it carries the error's message and the title `Title` gives for the effective status |
| `Errors.DefaultStatusWritesNothing` | middleware/errorHandler.js:4-23 | with the usual HTTP values for the codes, an error thrown while the status is still 200 gets no body, and an unset status becomes "Server" |

## Left out

- Server startup, the MongoDB connection and `process.exit` (app.js, config/dbConnection.js) are I/O.
- Express routing is not modelled. The contact handlers and `UpdateUser` take the caller that the gate attached. `LogoutUser` is modelled on its own, and `Users.LogoutAfterGate` states what it does behind the gate.
- `currentUser` only echoes `req.user` back and is not modelled. `deleteUser` is not exported by the controller, so `router.delete("/delete", validateToken, deleteUser)` (routes/userRoutes.js:205) receives `undefined` and throws while routes/userRoutes.js loads. app.js:13 loads that module at startup, so the server as written never starts; no handler behaviour follows from this route.
- Signing and verifying tokens is cryptography plus a clock. The verifier is an uninterpreted parameter, so a token's expiry is whatever the verifier decides.
- bcrypt salting is not modelled. Hashing is a deterministic parameter.
- The reset mail, its transport and the reset link are network I/O. Only the delivery outcome is kept, and it picks 200 or 500 after the ticket is stored.
- `RequestPasswordReset` and `ResetPassword` take the email as a string. What a query on an `undefined` email finds depends on driver settings.
- `Users.UserController.ResetPassword` (with `RequestPasswordReset` and `Users.ReplayRejected`): `resetTokenStore` is a plain object but is modelled as a dictionary. Prototype keys such as `"__proto__"` are not modelled: for that email the assignment changes the object's prototype, the ticket is still read back, and `delete` removes nothing, so such a ticket can be used again.
- The stack trace in error bodies and the console log of the default branch are left out.
- Ids that are not valid ObjectIds make Mongoose throw a cast error. That path is not modelled.
- Body fields that are not strings are not modelled. Lengths count Unicode scalar values, not UTF-16 code units.
- Regex semantics of the search are the `matches` parameter. The model builds the query but does not interpret patterns.
- Contacts come back as a map from id. The model does not capture the order in which the database returns them.
- Concurrency between in-flight requests is not modelled. Each handler runs as one sequential step.
- `Errors.KnownTitles`: the five constants are not part of this model. The titles are stated for any five distinct codes, and the mapping to 400, 404, 401, 403 and 500 is assumed only in `Errors.DefaultStatusWritesNothing`.
