/**
 * controllers/userController.js: registration, login, profile update,
 * logout and the password-reset tickets kept in `resetTokenStore`.
 * The User collection is held as a map from id to document; bcrypt,
 * jwt.sign, the clock, the random ticket and the mail transport are
 * parameters.
 */
module Users {
  import opened Wrappers
  import opened Domain
  import opened Http
  import opened JsString
  import Auth
  import Blacklist

  const FieldsMandatory := "All fields are mansatory !"
  const AlreadyRegistered := "User already registered !"
  const PasswordTooShort := "Password should be at least 8 characters long!"
  const RegisteredMessage := "User registered successfully!"
  const CredentialsRequired := "Email and password are required!"
  const LoginMessage := "Login successful!"
  const InvalidCredentials := "Invalid email or password!"
  const UserNotFound := "User not found!"
  const UpdatedMessage := "User updated successfully!"
  const NoValidToken := "No valid token provided"
  const LogoutMessage := "Logout successful!"
  const NoSuchEmail := "User with this email does not exist!"
  const CheckEmailMessage := "Please check your email for instructions to reset your password."
  const MailFailure := "Error sending email"
  const PasswordsDiffer := "Passwords do not match!"
  const InvalidTicket := "Invalid or expired password reset token!"
  const ResetMessage := "Password reset successfully!"

  /** The shortest password registration lets through (the message speaks of 8). */
  const MinPasswordLength := 4
  /** `expiresIn` given to jwt.sign at login. */
  const TokenLifetime := "30m"
  /** A reset ticket lives one hour, in milliseconds of `Date.now()`. */
  const ResetWindow := 3600000

  /** What login hands to jwt.sign. */
  datatype TokenClaims = TokenClaims(user: Claim, expiresIn: string)

  /** `resetTokenStore[email]` */
  datatype ResetEntry = ResetEntry(token: string, expires: int)

  /** `User.findOne({email})` finds a document. */
  predicate EmailTaken(users: map<UserId, User>, email: string)
  {
    exists id :: id in users && users[id].email == email
  }

  /** Some user other than `self` has this email. */
  predicate EmailTakenByOther(users: map<UserId, User>, self: UserId, email: string)
  {
    exists id :: id in users && id != self && users[id].email == email
  }

  /** The unique index on `email` in models/userModel.js. */
  predicate UniqueEmails(users: map<UserId, User>)
  {
    forall a, b :: a in users && b in users && users[a].email == users[b].email ==> a == b
  }

  /** The claim login signs and the update handler reports. */
  function ClaimOf(id: UserId, user: User): Claim
  {
    Claim(id, user.username, user.email)
  }

  /** Every check of registerUser passes. */
  predicate RegistrationAccepted(users: map<UserId, User>, username: Option<string>,
                                 email: Option<string>, password: Option<string>)
  {
    && Truthy(username) && Truthy(email) && Truthy(password)
    && !EmailTaken(users, email.value)
    && |password.value| >= MinPasswordLength
  }

  /** `user.username = username || user.username; user.email = email || user.email` */
  function Merge(user: User, username: Option<string>, email: Option<string>): User
  {
    User(if Truthy(username) then username.value else user.username,
         if Truthy(email) then email.value else user.email,
         user.password)
  }

  /** resetPassword's ticket test: present, equal, and `expires < now` is false. */
  predicate TicketAccepted(store: map<string, ResetEntry>, email: string, token: string, now: int)
  {
    email in store && store[email].token == token && !(store[email].expires < now)
  }

  class UserController {
    /** The User collection. */
    var users: map<UserId, User>
    /** The module-level `resetTokenStore` object, keyed by email. */
    var resetTokenStore: map<string, ResetEntry>
    /** The shared blacklist of config/blacklist.js. */
    const blacklist: Blacklist.TokenBlacklist

    ghost predicate Valid()
      reads this
    {
      UniqueEmails(users)
    }

    constructor (blacklist: Blacklist.TokenBlacklist)
      ensures Valid()
      ensures users == map[] && resetTokenStore == map[] && this.blacklist == blacklist
    {
      users := map[];
      resetTokenStore := map[];
      this.blacklist := blacklist;
    }

    /**
     * `registerUser`: missing fields, then a taken email, then a short
     * password are refused with 400, in that order; otherwise one user is
     * added whose stored password is the hash of the given one.
     */
    method RegisterUser(username: Option<string>, email: Option<string>, password: Option<string>,
                        newId: UserId, hash: string -> string) returns (resp: Response)
      requires Valid()
      requires newId !in users
      modifies this`users
      ensures Valid()
      ensures resp.Json? <==> RegistrationAccepted(old(users), username, email, password)
      ensures !(Truthy(username) && Truthy(email) && Truthy(password)) ==>
                resp == Raised(400, FieldsMandatory) && users == old(users)
      ensures Truthy(username) && Truthy(email) && Truthy(password) && EmailTaken(old(users), email.value) ==>
                resp == Raised(400, AlreadyRegistered) && users == old(users)
      ensures Truthy(username) && Truthy(email) && Truthy(password) && !EmailTaken(old(users), email.value)
              && |password.value| < MinPasswordLength ==>
                resp == Raised(400, PasswordTooShort) && users == old(users)
      ensures RegistrationAccepted(old(users), username, email, password) ==>
                && resp == Json(201, Some(RegisteredMessage), RegisteredUser(newId, email.value))
                && users == old(users)[newId := User(username.value, email.value, hash(password.value))]
    {
      if !Truthy(username) || !Truthy(email) || !Truthy(password) {
        return Raised(400, FieldsMandatory);
      }
      if EmailTaken(users, email.value) {
        return Raised(400, AlreadyRegistered);
      }
      if |password.value| < MinPasswordLength {
        return Raised(400, PasswordTooShort);
      }
      var stored := User(username.value, email.value, hash(password.value));
      users := users[newId := stored];
      resp := Json(201, Some(RegisteredMessage), RegisteredUser(newId, email.value));
    }

    /**
     * `loginUser`: 400 without both fields; 200 with a token signed over the
     * user's claim for 30 minutes exactly when a user with that email has
     * the hash of the given password; 401 otherwise.
     */
    method LoginUser(email: Option<string>, password: Option<string>, hash: string -> string,
                     sign: TokenClaims -> string) returns (resp: Response)
      requires Valid()
      ensures !Truthy(email) || !Truthy(password) ==> resp == Raised(400, CredentialsRequired)
      ensures Truthy(email) && Truthy(password) ==>
                (resp.Json? <==> exists id :: id in users && users[id].email == email.value
                                                          && users[id].password == hash(password.value))
      ensures Truthy(email) && Truthy(password) && !resp.Json? ==> resp == Raised(401, InvalidCredentials)
      ensures resp.Json? ==>
                exists id :: id in users && users[id].email == email.value
                  && var claim := ClaimOf(id, users[id]);
                     resp == Json(200, Some(LoginMessage), LoggedIn(sign(TokenClaims(claim, TokenLifetime)), claim))
    {
      if !Truthy(email) || !Truthy(password) {
        return Raised(400, CredentialsRequired);
      }
      if EmailTaken(users, email.value) {
        var id :| id in users && users[id].email == email.value;
        if users[id].password == hash(password.value) {
          var claim := ClaimOf(id, users[id]);
          return Json(200, Some(LoginMessage), LoggedIn(sign(TokenClaims(claim, TokenLifetime)), claim));
        }
      }
      resp := Raised(401, InvalidCredentials);
    }

    /**
     * `updateUser` for the caller attached by the token gate: 404 when the
     * caller's document is gone; a falsy field keeps the stored value; the
     * password is untouched; an email held by another user is refused by the
     * unique index when the document is saved.
     */
    method UpdateUser(caller: Claim, username: Option<string>, email: Option<string>) returns (resp: Response)
      requires Valid()
      modifies this`users
      ensures Valid()
      ensures caller.id !in old(users) ==> resp == Raised(404, UserNotFound) && users == old(users)
      ensures caller.id in old(users) ==>
                var merged := Merge(old(users)[caller.id], username, email);
                && merged.password == old(users)[caller.id].password
                && merged.username == (if Truthy(username) then username.value else old(users)[caller.id].username)
                && merged.email == (if Truthy(email) then email.value else old(users)[caller.id].email)
                && (EmailTakenByOther(old(users), caller.id, merged.email) ==>
                      resp == Unhandled && users == old(users))
                && (!EmailTakenByOther(old(users), caller.id, merged.email) ==>
                      && users == old(users)[caller.id := merged]
                      && resp == Json(200, Some(UpdatedMessage), Profile(ClaimOf(caller.id, merged))))
    {
      if caller.id !in users {
        return Raised(404, UserNotFound);
      }
      var merged := Merge(users[caller.id], username, email);
      if EmailTakenByOther(users, caller.id, merged.email) {
        return Unhandled;
      }
      users := users[caller.id := merged];
      resp := Json(200, Some(UpdatedMessage), Profile(ClaimOf(caller.id, merged)));
    }

    /**
     * `logoutUser`: a "Bearer"-prefixed header has its second field appended
     * to the blacklist; any other header is refused with 400 and the
     * blacklist is left as it was.
     */
    method LogoutUser(req: Auth.Request) returns (resp: Response)
      modifies blacklist
      ensures var header := Auth.SelectHeader(req.authorization, req.authorizationLower);
        if Auth.HasBearerPrefix(header) then
          && blacklist.tokens == old(blacklist.tokens) + [Auth.TokenOf(header.value)]
          && resp == Json(200, Some(LogoutMessage), NoPayload)
        else
          blacklist.tokens == old(blacklist.tokens) && resp == Raised(400, NoValidToken)
    {
      var header := Auth.SelectHeader(req.authorization, req.authorizationLower);
      if Auth.HasBearerPrefix(header) {
        blacklist.AddToken(Auth.TokenOf(header.value));
        resp := Json(200, Some(LogoutMessage), NoPayload);
      } else {
        resp := Raised(400, NoValidToken);
      }
    }

    /**
     * `requestPasswordReset`: an unknown email gets 404 and the store is
     * unchanged; a known one has its entry replaced by the new ticket,
     * expiring an hour from now, before the mail is sent, so a failed send
     * leaves the ticket in place.
     */
    method RequestPasswordReset(email: string, ticket: string, now: int, mailDelivered: bool)
        returns (resp: Response)
      modifies this`resetTokenStore
      ensures !EmailTaken(users, email) ==>
                resp == Raised(404, NoSuchEmail) && resetTokenStore == old(resetTokenStore)
      ensures EmailTaken(users, email) ==>
                && resetTokenStore == old(resetTokenStore)[email := ResetEntry(ticket, now + ResetWindow)]
                && resp == if mailDelivered then Json(200, Some(CheckEmailMessage), NoPayload)
                           else Json(500, None, MailError(MailFailure))
    {
      if !EmailTaken(users, email) {
        return Raised(404, NoSuchEmail);
      }
      resetTokenStore := resetTokenStore[email := ResetEntry(ticket, now + ResetWindow)];
      if mailDelivered {
        resp := Json(200, Some(CheckEmailMessage), NoPayload);
      } else {
        resp := Json(500, None, MailError(MailFailure));
      }
    }

    /**
     * `resetPassword`: differing passwords are refused before the store is
     * read; a missing, different or expired ticket is refused with one shared
     * message; a vanished user gives 404 and keeps the ticket; success stores
     * the hash of the new password and deletes the ticket.
     */
    method ResetPassword(token: string, newPassword: Option<string>, confirmPassword: Option<string>,
                         email: string, now: int, hash: string -> string) returns (resp: Response)
      requires Valid()
      modifies this`users, this`resetTokenStore
      ensures Valid()
      ensures newPassword != confirmPassword ==>
                && resp == Raised(400, PasswordsDiffer)
                && users == old(users) && resetTokenStore == old(resetTokenStore)
      ensures newPassword == confirmPassword && !TicketAccepted(old(resetTokenStore), email, token, now) ==>
                && resp == Raised(400, InvalidTicket)
                && users == old(users) && resetTokenStore == old(resetTokenStore)
      ensures newPassword == confirmPassword && TicketAccepted(old(resetTokenStore), email, token, now)
              && !EmailTaken(old(users), email) ==>
                && resp == Raised(404, UserNotFound)
                && users == old(users) && resetTokenStore == old(resetTokenStore)
      ensures newPassword == confirmPassword && TicketAccepted(old(resetTokenStore), email, token, now)
              && EmailTaken(old(users), email) && newPassword.None? ==>
                resp == Unhandled && users == old(users) && resetTokenStore == old(resetTokenStore)
      ensures resp.Json? <==>
                && newPassword == confirmPassword && newPassword.Some?
                && TicketAccepted(old(resetTokenStore), email, token, now)
                && EmailTaken(old(users), email)
      ensures resp.Json? ==>
                && resp == Json(200, Some(ResetMessage), NoPayload)
                && resetTokenStore == old(resetTokenStore) - {email}
                && exists id :: id in old(users) && old(users)[id].email == email
                     && users == old(users)[id := old(users)[id].(password := hash(newPassword.value))]
    {
      if newPassword != confirmPassword {
        return Raised(400, PasswordsDiffer);
      }
      if !TicketAccepted(resetTokenStore, email, token, now) {
        return Raised(400, InvalidTicket);
      }
      if !EmailTaken(users, email) {
        return Raised(404, UserNotFound);
      }
      var id :| id in users && users[id].email == email;
      if newPassword.None? {
        // bcrypt.hash(undefined, 10) throws before anything is saved
        return Unhandled;
      }
      users := users[id := users[id].(password := hash(newPassword.value))];
      resetTokenStore := resetTokenStore - {email};
      resp := Json(200, Some(ResetMessage), NoPayload);
    }
  }

  /**
   * Logout runs behind the token gate, so on every routed request it finds
   * the prefix and blacklists the very token the gate has just let through,
   * which is never `undefined` or empty.
   */
  lemma LogoutAfterGate(upper: Option<string>, lower: Option<string>, blacklist: seq<Token>,
                        verify: Auth.Verifier)
    requires Auth.Gate(upper, lower, blacklist, verify).Next?
    ensures Auth.HasBearerPrefix(Auth.SelectHeader(upper, lower))
    ensures var token := Auth.TokenOf(Auth.SelectHeader(upper, lower).value);
      && token.Some? && token.value != ""
      && Auth.Gate(upper, lower, blacklist + [token], verify) == Auth.Reject(401, Auth.RevokedMessage)
  {
  }

  /** Registration accepts passwords of length 4 to 7 although its message asks for 8. */
  lemma ShortPasswordAccepted(users: map<UserId, User>, username: string, email: string, password: string)
    requires username != "" && email != "" && !EmailTaken(users, email)
    requires 4 <= |password| < 8
    ensures RegistrationAccepted(users, Some(username), Some(email), Some(password))
  {
  }

  /** Adding a user whose email is free keeps emails unique. */
  lemma {:induction false} AddKeepsEmailsUnique(users: map<UserId, User>, id: UserId, user: User)
    requires UniqueEmails(users) && id !in users && !EmailTaken(users, user.email)
    ensures UniqueEmails(users[id := user])
  {
  }

  /** A ticket that was accepted cannot be used again once the reset has deleted it. */
  lemma ReplayRejected(store: map<string, ResetEntry>, email: string, token: string, later: int)
    ensures !TicketAccepted(store - {email}, email, token, later)
  {
  }

  /** A new request for the same email makes every earlier, different ticket useless. */
  lemma LatestTicketOnly(store: map<string, ResetEntry>, email: string, earlier: string, latest: string,
                         issuedAt: int, now: int)
    requires earlier != latest
    ensures !TicketAccepted(store[email := ResetEntry(latest, issuedAt + ResetWindow)], email, earlier, now)
  {
  }

  /**
   * A fresh ticket is accepted up to and including the instant its hour
   * ends, and refused one millisecond later.
   */
  lemma TicketWindow(store: map<string, ResetEntry>, email: string, ticket: string, issuedAt: int, now: int)
    ensures TicketAccepted(store[email := ResetEntry(ticket, issuedAt + ResetWindow)], email, ticket, now)
            <==> now <= issuedAt + ResetWindow
  {
  }

  /** A request for one email leaves every other email's ticket as it was. */
  lemma OtherTicketsUntouched(store: map<string, ResetEntry>, email: string, other: string,
                              entry: ResetEntry, token: string, now: int)
    requires other != email
    ensures TicketAccepted(store[email := entry], other, token, now) == TicketAccepted(store, other, token, now)
  {
  }
}
