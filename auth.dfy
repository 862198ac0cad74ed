/**
 * Authentication and role middlewares (backend/src/middlewares/authMiddleware.ts):
 * the bearer token is read from the Authorization header, Cognito resolves
 * it to a user identity (`sub`), the user is looked up by that identity and
 * attached to the request; the admin and seller gates then check its role.
 *
 * Cognito's answer and the users table are parameters: the model does not
 * call out to either.
 */
module Auth {
  import opened Wrappers
  import Strings
  import opened ErrorHandler

  datatype UserRole = ADMIN | SELLER | CUSTOMER

  /** The user attached to an authenticated request. */
  datatype AuthUser = AuthUser(
    id: string, email: string, cognitoId: string, role: UserRole,
    sellerId: Option<string>, customerId: Option<string>)

  /** A row of the users table with the ids of its seller and customer profiles, if any. */
  datatype UserRecord = UserRecord(
    id: string, email: string, cognitoId: string, role: UserRole,
    sellerProfile: Option<string>, customerProfile: Option<string>)

  /** One Cognito user attribute; its value may be missing. */
  datatype CognitoAttribute = CognitoAttribute(name: string, value: Option<string>)

  /** What Cognito's GetUser answers for a token: the user's attributes, or an error with an optional code. */
  datatype IdentityReply =
    | UserAttributes(attributes: seq<CognitoAttribute>)
    | CognitoError(code: Option<string>)

  /** How the inner block of the middleware failed: Cognito threw, or the block raised an `HttpError`. */
  datatype InnerFailure = FromCognito(code: Option<string>) | Raised(error: HttpError)

  const BearerPrefix := "Bearer "

  /** `authHeader.split(' ')[1]`; a missing second piece is undefined, falsy like "". */
  function SecondWord(header: string): string {
    var parts := Strings.Split(header, ' ');
    if |parts| >= 2 then parts[1] else ""
  }

  /** The token from the Authorization header, or the 401 the middleware raises. */
  function ExtractToken(header: Option<string>): (r: Result<string, HttpError>)
    ensures r.Err? ==> r.error.statusCode == 401
    ensures r.Ok? ==> header.Some? && Strings.StartsWith(header.value, BearerPrefix)
    ensures r.Ok? ==> r.value != "" && ' ' !in r.value
  {
    if header.None? || header.value == "" || !Strings.StartsWith(header.value, BearerPrefix) then
      Err(HttpError("Authorization token is required", 401))
    else
      var token := SecondWord(header.value);
      if token == "" then Err(HttpError("Invalid authorization token format", 401))
      else
        assert token in Strings.Split(header.value, ' ');
        Ok(token)
  }

  /** `Bearer <word>`, alone or followed by a space and more text, yields `<word>`. */
  lemma BearerWord(word: string, tail: string)
    requires word != "" && ' ' !in word
    requires tail == [] || tail[0] == ' '
    ensures ExtractToken(Some(BearerPrefix + word + tail)) == Ok(word)
  {
    TokenAfterPrefix(word, tail);
  }

  /** Helper: the second word after "Bearer " is the text up to the next space. */
  lemma TokenAfterPrefix(word: string, tail: string)
    requires ' ' !in word
    requires tail == [] || tail[0] == ' '
    ensures SecondWord(BearerPrefix + word + tail) == word
  {
    var header := BearerPrefix + word + tail;
    assert header == "Bearer" + [' '] + (word + tail);
    Strings.SplitAtFirst("Bearer", ' ', word + tail);
    if tail == [] {
      assert word + tail == word;
      Strings.SplitWithoutSeparator(word, ' ');
    } else {
      assert word + tail == word + [' '] + tail[1..];
      Strings.SplitAtFirst(word, ' ', tail[1..]);
    }
  }

  /** A header that is exactly "Bearer " or has two spaces after "Bearer" has the wrong format. */
  lemma EmptyTokenRejected(rest: string)
    requires rest == [] || rest[0] == ' '
    ensures ExtractToken(Some(BearerPrefix + rest)) == Err(HttpError("Invalid authorization token format", 401))
  {
    TokenAfterPrefix("", rest);
    assert BearerPrefix + "" + rest == BearerPrefix + rest;
  }

  /** A scheme other than "Bearer " (lower case, for instance) is treated as a missing token. */
  lemma OtherSchemeRejected(token: string)
    ensures ExtractToken(Some("bearer " + token)) == Err(HttpError("Authorization token is required", 401))
  {
    assert ("bearer " + token)[0] == 'b';
  }

  /** Attribute `k` is the first one named `sub`. */
  predicate FirstSub(attributes: seq<CognitoAttribute>, k: int) {
    0 <= k < |attributes| && attributes[k].name == "sub" && forall j :: 0 <= j < k ==> attributes[j].name != "sub"
  }

  /**
   * `find(a => a.Name === 'sub')?.Value`: the value of the first attribute
   * named `sub`, and none when no attribute has that name.
   */
  function SubOf(attributes: seq<CognitoAttribute>): (r: Option<string>)
    ensures (forall i :: 0 <= i < |attributes| ==> attributes[i].name != "sub") ==> r == None
    ensures forall k :: FirstSub(attributes, k) ==> r == attributes[k].value
  {
    if attributes == [] then None
    else if attributes[0].name == "sub" then attributes[0].value
    else SubOf(attributes[1..])
  }

  /** The request's user, copied from the database row. */
  function ToAuthUser(u: UserRecord): AuthUser {
    AuthUser(u.id, u.email, u.cognitoId, u.role, u.sellerProfile, u.customerProfile)
  }

  /**
   * The user table as `findUnique({ where: { cognitoId } })` sees it: each
   * row is found under its own `cognitoId`.
   */
  predicate KeyedByCognitoId(users: map<string, UserRecord>) {
    forall s :: s in users ==> users[s].cognitoId == s
  }

  /** The inner block: Cognito's reply, the `sub` check and the database lookup. */
  function Identify(reply: IdentityReply, users: map<string, UserRecord>): (r: Result<AuthUser, InnerFailure>)
    ensures r.Ok? <==> reply.UserAttributes? && Strings.Truthy(SubOf(reply.attributes)) && SubOf(reply.attributes).value in users
    ensures r.Ok? ==> r.value == ToAuthUser(users[SubOf(reply.attributes).value])
    ensures r.Ok? && KeyedByCognitoId(users) ==> r.value.cognitoId == SubOf(reply.attributes).value
  {
    match reply
    case CognitoError(code) => Err(FromCognito(code))
    case UserAttributes(attributes) =>
      var cognitoSub := SubOf(attributes);
      if !Strings.Truthy(cognitoSub) then Err(Raised(HttpError("Invalid user identity", 401)))
      else if cognitoSub.value !in users then Err(Raised(HttpError("User not found in the system", 404)))
      else Ok(ToAuthUser(users[cognitoSub.value]))
  }

  /**
   * The inner `catch` as written: it tests only for Cognito's
   * NotAuthorizedException, so the `HttpError`s raised in the same block are
   * replaced by a generic 401 too.
   */
  function CatchAsWritten(f: InnerFailure): (e: HttpError)
    ensures e.statusCode == 401
    ensures e.message == "Invalid or expired token" <==> f == FromCognito(Some("NotAuthorizedException"))
  {
    if f.FromCognito? && f.code == Some("NotAuthorizedException") then HttpError("Invalid or expired token", 401)
    else HttpError("Authentication failed", 401)
  }

  /** The inner `catch` as evidently intended: errors the block raised itself are passed on unchanged. */
  function Catch(f: InnerFailure): (e: HttpError)
    ensures f.Raised? ==> e == f.error
    ensures f.FromCognito? ==> e.statusCode == 401
  {
    match f
    case Raised(e) => e
    case FromCognito(_) => CatchAsWritten(f)
  }

  /** `authMiddleware` as written. */
  function AuthenticateAsWritten(header: Option<string>, reply: IdentityReply, users: map<string, UserRecord>)
    : (r: Result<AuthUser, HttpError>)
    ensures r.Err? ==> r.error.statusCode == 401
    ensures r.Ok? <==> ExtractToken(header).Ok? && Identify(reply, users).Ok?
    ensures r.Ok? ==> r.value == Identify(reply, users).value
  {
    match ExtractToken(header)
    case Err(e) => Err(e)
    case Ok(_) =>
      match Identify(reply, users)
      case Ok(user) => Ok(user)
      case Err(f) => Err(CatchAsWritten(f))
  }

  /** `authMiddleware` with the inner `catch` passing on its own errors. */
  function Authenticate(header: Option<string>, reply: IdentityReply, users: map<string, UserRecord>)
    : (r: Result<AuthUser, HttpError>)
    ensures r.Err? ==> r.error.statusCode == 401 || r.error.statusCode == 404
    ensures r.Ok? <==> ExtractToken(header).Ok? && Identify(reply, users).Ok?
    ensures r.Ok? ==> r.value == Identify(reply, users).value
  {
    match ExtractToken(header)
    case Err(e) => Err(e)
    case Ok(_) =>
      match Identify(reply, users)
      case Ok(user) => Ok(user)
      case Err(f) => Err(Catch(f))
  }

  /** Both versions accept exactly the same requests and attach the same user. */
  lemma SameAcceptance(header: Option<string>, reply: IdentityReply, users: map<string, UserRecord>)
    ensures AuthenticateAsWritten(header, reply, users).Ok? <==> Authenticate(header, reply, users).Ok?
    ensures Authenticate(header, reply, users).Ok? ==>
      AuthenticateAsWritten(header, reply, users) == Authenticate(header, reply, users)
  {
  }

  /** As written, a valid token whose user is not in the database is answered 401 "Authentication failed". */
  lemma UnknownUserAsWritten(token: string, sub: string, users: map<string, UserRecord>)
    requires token != "" && ' ' !in token && sub != "" && sub !in users
    ensures AuthenticateAsWritten(Some(BearerPrefix + token), UserAttributes([CognitoAttribute("sub", Some(sub))]), users)
      == Err(HttpError("Authentication failed", 401))
  {
    BearerWord(token, "");
    assert BearerPrefix + token + "" == BearerPrefix + token;
  }

  /** Corrected, the same request is answered 404 "User not found in the system". */
  lemma UnknownUser(token: string, sub: string, users: map<string, UserRecord>)
    requires token != "" && ' ' !in token && sub != "" && sub !in users
    ensures Authenticate(Some(BearerPrefix + token), UserAttributes([CognitoAttribute("sub", Some(sub))]), users)
      == Err(HttpError("User not found in the system", 404))
  {
    BearerWord(token, "");
    assert BearerPrefix + token + "" == BearerPrefix + token;
  }

  /** Cognito's NotAuthorizedException is reported as an invalid or expired token. */
  lemma ExpiredToken(header: Option<string>, users: map<string, UserRecord>)
    requires ExtractToken(header).Ok?
    ensures Authenticate(header, CognitoError(Some("NotAuthorizedException")), users)
      == Err(HttpError("Invalid or expired token", 401))
  {
  }

  /** An express request: its Authorization header and the user the middleware attaches. */
  class Request {
    var authorization: Option<string>
    var user: Option<AuthUser>

    constructor (authorization: Option<string>)
      ensures this.authorization == authorization && user == None
    {
      this.authorization := authorization;
      user := None;
    }

    /**
     * `authMiddleware(req, res, next)`: on success the user is attached and
     * `next()` is called; otherwise `next(error)` gets the error and the
     * request is left as it was. The inner `catch` is the one written in the
     * middleware, so every failure is a 401.
     */
    method AuthMiddleware(reply: IdentityReply, users: map<string, UserRecord>) returns (failure: Option<HttpError>)
      modifies this`user
      ensures var r := AuthenticateAsWritten(authorization, reply, users);
        if r.Ok? then failure == None && user == Some(r.value)
        else failure == Some(r.error) && user == old(user)
    {
      var token := ExtractToken(authorization);
      if token.Err? {
        return Some(token.error);
      }
      var identified := Identify(reply, users);
      match identified {
        case Ok(u) =>
          user := Some(u);
          failure := None;
        case Err(f) =>
          failure := Some(CatchAsWritten(f));
      }
    }
  }

  /** `adminMiddleware` for the user attached by `authMiddleware`. */
  function AdminGate(user: AuthUser): (r: Option<HttpError>)
    ensures r.None? <==> user.role == ADMIN
    ensures r.Some? ==> r.value.statusCode == 403
  {
    if user.role != ADMIN then Some(HttpError("Access denied. Admin role required", 403)) else None
  }

  /** `sellerMiddleware`: sellers with a seller profile and admins pass. */
  function SellerGate(user: AuthUser): (r: Option<HttpError>)
    ensures r.None? <==> user.role == ADMIN || (user.role == SELLER && Strings.Truthy(user.sellerId))
    ensures r.Some? ==> (r.value.statusCode == 403 <==> user.role == CUSTOMER)
    ensures r.Some? ==> (r.value.statusCode == 404 <==> user.role == SELLER)
  {
    if user.role != SELLER && user.role != ADMIN then
      assert user.role.CUSTOMER?;
      Some(HttpError("Access denied. Seller role required", 403))
    else if user.role == SELLER && !Strings.Truthy(user.sellerId) then Some(HttpError("Seller profile not found", 404))
    else None
  }

  /** Whoever passes the admin gate passes the seller gate. */
  lemma AdminIsSeller(user: AuthUser)
    requires AdminGate(user).None?
    ensures SellerGate(user).None?
  {
  }

  /** An authenticated seller passes the seller gate exactly when the database row has a seller profile. */
  lemma SellerNeedsProfile(header: Option<string>, reply: IdentityReply, users: map<string, UserRecord>)
    requires Authenticate(header, reply, users).Ok?
    requires Authenticate(header, reply, users).value.role == SELLER
    ensures SellerGate(Authenticate(header, reply, users).value).None?
      <==> Strings.Truthy(users[SubOf(reply.attributes).value].sellerProfile)
  {
  }
}
