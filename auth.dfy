/**
 * middleware/validateTokenHandler.js: the gate every protected route runs
 * first. It picks the Authorization header, insists on the "Bearer" prefix,
 * turns blacklisted tokens away before the signature is looked at, asks the
 * verifier, and on success attaches the decoded user claim to the request.
 */
module Auth {
  import opened Wrappers
  import opened Domain
  import opened JsString
  import Blacklist

  const MissingTokenMessage := "User is not authorized or token is missing"
  const RevokedMessage := "Token is invalid, please log in again!"
  const NotAuthorizedMessage := "User is not authorized"

  /** The request as the gate sees it. */
  class Request {
    /** `req.headers.Authorization` */
    const authorization: Option<string>
    /** `req.headers.authorization` */
    const authorizationLower: Option<string>
    /** `req.user`, unset until the gate accepts the request. */
    var user: Option<Claim>

    constructor (upper: Option<string>, lower: Option<string>)
      ensures authorization == upper && authorizationLower == lower
      ensures user == None
    {
      authorization, authorizationLower := upper, lower;
      user := None;
    }
  }

  /** How the gate ends: `next()` with the claim attached, or a 401 body. */
  datatype GateOutcome =
    | Next(user: Claim)
    | Reject(status: int, message: string)

  /**
   * `jwt.verify(token, secret)` on a token string that is present and
   * non-empty: the decoded `user` claim, or None for a bad signature, a
   * malformed payload or an expired token.
   */
  type Verifier = string -> Option<Claim>

  /** `req.headers.Authorization || req.headers.authorization` */
  function SelectHeader(upper: Option<string>, lower: Option<string>): (header: Option<string>)
    ensures header == upper || header == lower
    ensures Truthy(upper) ==> header == upper
    ensures !Truthy(upper) ==> header == lower
  {
    if Truthy(upper) then upper else lower
  }

  /** `authHeader && authHeader.startsWith("Bearer")`: no space is required after the word. */
  predicate HasBearerPrefix(header: Option<string>)
    ensures HasBearerPrefix(header) <==>
              header.Some? && |header.value| >= 6 && header.value[..6] == "Bearer"
  {
    Truthy(header) && StartsWith(header.value, "Bearer")
  }

  /** `authHeader.split(" ")[1]`: undefined exactly when the header holds no space. */
  function TokenOf(header: string): (token: Token)
    ensures token == None <==> ' ' !in header
    ensures token.Some? ==> ' ' !in token.value
  {
    SpacesCount(header);
    var fields := Split(header);
    if |fields| >= 2 then Some(fields[1]) else None
  }

  /**
   * The decision the gate takes, in the order the handler checks. A token
   * that is undefined or empty is refused by jsonwebtoken itself ("jwt must
   * be provided") before any signature is looked at, through the same
   * callback error as a bad signature.
   */
  function Gate(upper: Option<string>, lower: Option<string>, blacklist: seq<Token>,
                verify: Verifier): (outcome: GateOutcome)
    ensures outcome.Reject? ==> outcome.status == 401
    ensures outcome.Next? ==>
              var header := SelectHeader(upper, lower);
              && HasBearerPrefix(header)
              && TokenOf(header.value) !in blacklist
              && Truthy(TokenOf(header.value))
              && verify(TokenOf(header.value).value) == Some(outcome.user)
  {
    var header := SelectHeader(upper, lower);
    if !HasBearerPrefix(header) then Reject(401, MissingTokenMessage)
    else
      var token := TokenOf(header.value);
      if token in blacklist then Reject(401, RevokedMessage)
      else if !Truthy(token) then Reject(401, NotAuthorizedMessage)
      else
        match verify(token.value)
        case None => Reject(401, NotAuthorizedMessage)
        case Some(claim) => Next(claim)
  }

  /** `validateToken`: runs the gate against the live blacklist and sets `req.user` on success only. */
  method ValidateToken(req: Request, blacklist: Blacklist.TokenBlacklist, verify: Verifier)
      returns (outcome: GateOutcome)
    modifies req
    ensures outcome == Gate(req.authorization, req.authorizationLower, blacklist.tokens, verify)
    ensures req.user == if outcome.Next? then Some(outcome.user) else old(req.user)
  {
    var header := SelectHeader(req.authorization, req.authorizationLower);
    if HasBearerPrefix(header) {
      var token := TokenOf(header.value);
      var listed := blacklist.IsTokenBlacklisted(token);
      if listed {
        return Reject(401, RevokedMessage);
      }
      if !Truthy(token) {
        return Reject(401, NotAuthorizedMessage);
      }
      var decoded := verify(token.value);
      if decoded.None? {
        return Reject(401, NotAuthorizedMessage);
      }
      req.user := Some(decoded.value);
      outcome := Next(decoded.value);
    } else {
      outcome := Reject(401, MissingTokenMessage);
    }
  }

  lemma {:induction false} SpacesCount(s: string)
    ensures Spaces(s) == 0 <==> ' ' !in s
  {
    if s != [] {
      SpacesCount(s[1..]);
      assert s == [s[0]] + s[1..];
    }
  }

  /** The wire form `Bearer <token>` gives back exactly the token, for any space-free token. */
  lemma {:induction false} BearerTokenRoundTrip(token: string)
    requires ' ' !in token
    ensures HasBearerPrefix(Some("Bearer " + token))
    ensures TokenOf("Bearer " + token) == Some(token)
  {
    var fields := ["Bearer", token];
    JoinThenSplit(fields);
    assert fields[1..] == [token];
    assert Join(fields) == "Bearer " + token;
    assert "Bearer" <= "Bearer " + token;
  }

  /**
   * The gate accepts exactly when the prefix is there, the token is not
   * blacklisted, is present and non-empty, and the verifier decodes it.
   */
  lemma GateAccepts(upper: Option<string>, lower: Option<string>, blacklist: seq<Token>, verify: Verifier)
    ensures var header := SelectHeader(upper, lower);
      Gate(upper, lower, blacklist, verify).Next? <==>
        && HasBearerPrefix(header) && TokenOf(header.value) !in blacklist
        && Truthy(TokenOf(header.value)) && verify(TokenOf(header.value).value).Some?
  {
  }

  /**
   * No header without a space is ever let through, whatever the blacklist
   * and the verifier: whatever reaches `next()` carries a real token.
   */
  lemma AcceptedHeaderHasToken(upper: Option<string>, lower: Option<string>, blacklist: seq<Token>,
                               verify: Verifier)
    requires Gate(upper, lower, blacklist, verify).Next?
    ensures ' ' in SelectHeader(upper, lower).value
    ensures TokenOf(SelectHeader(upper, lower).value) != None
  {
  }

  /**
   * With the prefix present and the token not blacklisted, a token that is
   * undefined, empty or refused by the verifier gets 401 "User is not authorized".
   */
  lemma UnverifiedTokenRefused(upper: Option<string>, lower: Option<string>, blacklist: seq<Token>,
                               verify: Verifier)
    requires HasBearerPrefix(SelectHeader(upper, lower))
    requires TokenOf(SelectHeader(upper, lower).value) !in blacklist
    requires var token := TokenOf(SelectHeader(upper, lower).value);
      !Truthy(token) || verify(token.value).None?
    ensures Gate(upper, lower, blacklist, verify) == Reject(401, NotAuthorizedMessage)
  {
  }

  /**
   * The blacklist is consulted before the verifier: for a blacklisted token
   * the answer is the same whatever any verifier would say.
   */
  lemma BlacklistBeforeVerify(upper: Option<string>, lower: Option<string>, blacklist: seq<Token>,
                              verify1: Verifier, verify2: Verifier)
    requires HasBearerPrefix(SelectHeader(upper, lower))
    requires TokenOf(SelectHeader(upper, lower).value) in blacklist
    ensures Gate(upper, lower, blacklist, verify1) == Gate(upper, lower, blacklist, verify2)
    ensures Gate(upper, lower, blacklist, verify1) == Reject(401, RevokedMessage)
  {
  }

  /** Without the prefix nothing else is consulted: neither the blacklist nor the verifier. */
  lemma MissingPrefixFirst(upper: Option<string>, lower: Option<string>,
                           blacklist1: seq<Token>, verify1: Verifier,
                           blacklist2: seq<Token>, verify2: Verifier)
    requires !HasBearerPrefix(SelectHeader(upper, lower))
    ensures Gate(upper, lower, blacklist1, verify1) == Gate(upper, lower, blacklist2, verify2)
    ensures Gate(upper, lower, blacklist1, verify1) == Reject(401, MissingTokenMessage)
  {
  }

  /**
   * A token the verifier accepts passes the gate when sent as `Bearer <token>`,
   * and once that token has been appended to the blacklist (as logout does)
   * the same header is refused as revoked, although the verifier still accepts it.
   */
  lemma {:induction false} RevokedAfterLogout(token: string, claim: Claim, blacklist: seq<Token>,
                                              verify: Verifier)
    requires ' ' !in token && token != ""
    requires verify(token) == Some(claim)
    requires Some(token) !in blacklist
    ensures Gate(None, Some("Bearer " + token), blacklist, verify) == Next(claim)
    ensures Gate(None, Some("Bearer " + token), blacklist + [TokenOf("Bearer " + token)], verify)
            == Reject(401, RevokedMessage)
  {
    BearerTokenRoundTrip(token);
  }

  /**
   * If `undefined` ever sits in the blacklist (only the logout handler run
   * without the gate in front of it can put it there), every prefixed
   * header without a space is refused as revoked rather than as unauthorized.
   */
  lemma {:induction false} UndefinedTokenRevoked(header: string, blacklist: seq<Token>, verify: Verifier)
    requires HasBearerPrefix(Some(header)) && ' ' !in header
    ensures Gate(None, Some(header), blacklist + [TokenOf("Bearer")], verify) == Reject(401, RevokedMessage)
  {
    assert ' ' !in "Bearer";
  }
}
