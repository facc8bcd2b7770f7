/** web/backend/src/middleware/middleware.js: reading the bearer token,
    the `protect` guard, the `optionalAuth` guard that never rejects, and
    the `authorize` role check. Token verification is an oracle. */
module Middleware {
  import opened Common
  import opened UserModel
  import opened Store

  // ---------------------------------------------------------------- bearer token

  /** The token of an `Authorization` header: only when the header starts
      with "Bearer", the second space-separated segment, if it is not empty. */
  function BearerToken(header: Option<string>): (token: Option<string>)
    ensures token.Some? <==>
              header.Some? && StartsWith(header.value, "Bearer")
              && |Split(header.value, ' ')| >= 2 && Split(header.value, ' ')[1] != ""
    ensures token.Some? ==> token.value == Split(header.value, ' ')[1] && ' ' !in token.value
  {
    if header.None? || !StartsWith(header.value, "Bearer") then None
    else
      var parts := Split(header.value, ' ');
      if |parts| < 2 || parts[1] == "" then None else Some(parts[1])
  }

  /** A header written as "Bearer " followed by a token without spaces
      yields exactly that token. */
  lemma BearerRoundTrip(token: string)
    requires token != "" && ' ' !in token
    ensures BearerToken(Some("Bearer " + token)) == Some(token)
  {
    var header := "Bearer " + token;
    assert header[..6] == "Bearer";
    assert header[6] == ' ' && ' ' !in header[..6];
    assert IndexOf(header, ' ') == Some(6);
    assert header[7..] == token;
    assert Split(header, ' ') == [header[..6]] + Split(token, ' ');
  }

  /** The scheme word must come first: a header that does not start with
      "Bearer" carries no token, whatever follows. */
  lemma OtherSchemeHasNoToken(token: string)
    ensures BearerToken(Some("Basic " + token)) == None
  {
    assert ("Basic " + token)[0] == 'B' && ("Basic " + token)[1] == 'a';
  }

  // ---------------------------------------------------------------- token verification

  /** What `jwt.verify` gives: the id it carries, or the name of the error
      it throws. */
  datatype JwtResult = Decoded(id: UserId) | Rejected(errorName: string)

  /** The document `findById(...).select("-password")` yields: the stored
      one, without its password. */
  function WithoutPassword(a: Account): (r: Account)
    ensures r.password == "" && r.(password := a.password) == a
  {
    a.(password := "")
  }

  // ---------------------------------------------------------------- protect

  datatype ProtectOutcome =
    | NoToken
    | UnknownUser
    | Deleted
    | Inactive(status: Status)
    | TokenExpired
    | InvalidToken
    | GuardError
    | Authorized(id: UserId)
  {
    function HttpStatus(): nat
    {
      match this
      case NoToken => 401
      case UnknownUser => 401
      case Deleted => 403
      case Inactive(_) => 403
      case TokenExpired => 401
      case InvalidToken => 401
      case GuardError => 500
      case Authorized(_) => 200
    }

    function Message(): string
    {
      match this
      case NoToken => "Not authorized. Please sign in"
      case UnknownUser => "User not found"
      case Deleted => "Account has been deleted"
      case Inactive(s) => "Account is " + StatusName(s)
      case TokenExpired => "Token expired. Please sign in again"
      case InvalidToken => "Invalid token"
      case GuardError => "Server error"
      case Authorized(_) => ""
    }
  }

  /** The ladder of `protect`: no token, then the token's verification,
      then the account's existence, deletion and status. */
  function ProtectDecision(token: Option<string>, verify: string -> JwtResult, users: map<UserId, Account>)
    : (r: ProtectOutcome)
    ensures r == NoToken <==> token.None?
    ensures r.Authorized? <==>
              token.Some? && verify(token.value).Decoded? && verify(token.value).id in users
              && users[verify(token.value).id].deletedAt.None? && users[verify(token.value).id].status == Active
    ensures r.Authorized? ==> r.id == verify(token.value).id
    ensures r == TokenExpired <==> token.Some? && verify(token.value) == Rejected("TokenExpiredError")
    ensures r == InvalidToken <==> token.Some? && verify(token.value) == Rejected("JsonWebTokenError")
    ensures r == GuardError <==>
              token.Some? && verify(token.value).Rejected?
              && verify(token.value).errorName != "TokenExpiredError" && verify(token.value).errorName != "JsonWebTokenError"
    ensures r == UnknownUser <==> token.Some? && verify(token.value).Decoded? && verify(token.value).id !in users
    ensures r == Deleted <==>
              token.Some? && verify(token.value).Decoded? && verify(token.value).id in users
              && users[verify(token.value).id].deletedAt.Some?
    ensures r.Inactive? <==>
              token.Some? && verify(token.value).Decoded? && verify(token.value).id in users
              && users[verify(token.value).id].deletedAt.None? && users[verify(token.value).id].status != Active
    ensures r.Inactive? ==> r.status == users[verify(token.value).id].status && r.status != Active
  {
    match token
    case None => NoToken
    case Some(t) =>
      match verify(t)
      case Rejected(name) =>
        if name == "TokenExpiredError" then TokenExpired
        else if name == "JsonWebTokenError" then InvalidToken
        else GuardError
      case Decoded(id) =>
        if id !in users then UnknownUser
        else if users[id].deletedAt.Some? then Deleted
        else if users[id].status != Active then Inactive(users[id].status)
        else Authorized(id)
  }

  /** The Express request as the guards see it. */
  class Request {
    var authorization: Option<string>
    var user: Option<Account>
    var nextCalled: bool

    constructor (authorization: Option<string>)
      ensures this.authorization == authorization && user.None? && !nextCalled
    {
      this.authorization := authorization;
      user := None;
      nextCalled := false;
    }
  }

  /** `protect`: on success it sets `req.user` and calls `next`; on every
      other outcome it answers and leaves the request as it was. */
  method Protect(req: Request, store: UserCollection, verify: string -> JwtResult) returns (response: ProtectOutcome)
    modifies req
    ensures response == ProtectDecision(BearerToken(old(req.authorization)), verify, store.users)
    ensures req.authorization == old(req.authorization)
    ensures response.Authorized? ==>
              response.id in store.users && req.user == Some(WithoutPassword(store.users[response.id])) && req.nextCalled
    ensures !response.Authorized? ==> req.user == old(req.user) && req.nextCalled == old(req.nextCalled)
  {
    var token := BearerToken(req.authorization);
    if token.None? {
      return NoToken;
    }
    var decoded := verify(token.value);
    if decoded.Rejected? {
      if decoded.errorName == "TokenExpiredError" {
        return TokenExpired;
      }
      if decoded.errorName == "JsonWebTokenError" {
        return InvalidToken;
      }
      return GuardError;
    }
    var id := decoded.id;
    if id !in store.users {
      return UnknownUser;
    }
    var user := WithoutPassword(store.users[id]);
    if user.deletedAt.Some? {
      return Deleted;
    }
    if user.status != Active {
      return Inactive(user.status);
    }
    req.user := Some(user);
    req.nextCalled := true;
    response := Authorized(id);
  }

  // ---------------------------------------------------------------- optionalAuth

  /** The account `optionalAuth` attaches, if any: a verified token naming a
      stored, undeleted, active account. */
  function OptionalUser(token: Option<string>, verify: string -> JwtResult, users: map<UserId, Account>)
    : (r: Option<UserId>)
    ensures r.Some? ==> r.value in users && users[r.value].deletedAt.None? && users[r.value].status == Active
  {
    if token.Some? && verify(token.value).Decoded? then
      var id := verify(token.value).id;
      if id in users && users[id].deletedAt.None? && users[id].status == Active then Some(id) else None
    else None
  }

  /** `optionalAuth` attaches exactly the accounts `protect` admits, and no
      other. */
  lemma OptionalAgreesWithProtect(token: Option<string>, verify: string -> JwtResult, users: map<UserId, Account>)
    ensures OptionalUser(token, verify, users).Some? <==> ProtectDecision(token, verify, users).Authorized?
    ensures OptionalUser(token, verify, users).Some? ==>
              OptionalUser(token, verify, users).value == ProtectDecision(token, verify, users).id
  {
  }

  /** `optionalAuth`: always calls `next`; sets `req.user` only for an
      account `protect` would admit, and otherwise leaves it unset. */
  method OptionalAuth(req: Request, store: UserCollection, verify: string -> JwtResult)
    modifies req
    ensures req.nextCalled && req.authorization == old(req.authorization)
    ensures var found := OptionalUser(BearerToken(old(req.authorization)), verify, store.users);
            req.user == if found.Some? then Some(WithoutPassword(store.users[found.value])) else old(req.user)
  {
    var token := BearerToken(req.authorization);
    if token.None? {
      req.nextCalled := true;
      return;
    }
    var decoded := verify(token.value);
    if decoded.Decoded? {
      var id := decoded.id;
      if id in store.users {
        var user := WithoutPassword(store.users[id]);
        if user.deletedAt.None? && user.status == Active {
          req.user := Some(user);
        }
      }
    }
    req.nextCalled := true;
  }

  // ---------------------------------------------------------------- authorize

  function RoleName(r: Role): string
  {
    match r
    case Driver => "driver"
    case Passenger => "passenger"
    case Host => "host"
    case Traveler => "traveler"
  }

  /** `roles.some(role => held.includes(role))`. */
  function SomeRoleHeld(required: seq<Role>, held: seq<Role>): (b: bool)
    ensures b <==> exists i :: 0 <= i < |required| && required[i] in held
  {
    if required == [] then false
    else if required[0] in held then true
    else
      var rest := SomeRoleHeld(required[1..], held);
      assert forall i :: 1 <= i < |required| ==> required[i] == required[1..][i - 1];
      rest
  }

  /** Some required role is held exactly when the two role sets meet. */
  lemma RolesMeet(required: seq<Role>, held: seq<Role>)
    ensures SomeRoleHeld(required, held) <==> (set x | x in required) * (set x | x in held) != {}
  {
    if SomeRoleHeld(required, held) {
      var i :| 0 <= i < |required| && required[i] in held;
      assert required[i] in (set x | x in required) * (set x | x in held);
    }
  }

  datatype AuthorizeOutcome = NotAuthorized | Forbidden(required: seq<Role>) | Allowed
  {
    function HttpStatus(): nat
    {
      match this
      case NotAuthorized => 401
      case Forbidden(_) => 403
      case Allowed => 200
    }
  }

  /** The 403 message names the required roles, comma-separated. */
  function ForbiddenMessage(required: seq<Role>): string
  {
    "User role is not authorized to access this route. Required roles: "
    + Join(seq(|required|, i requires 0 <= i < |required| => RoleName(required[i])), ", ")
  }

  /** `authorize(...required)`: 401 without a user; otherwise the request
      passes exactly when the user holds one of the required roles, which
      is to say when the two role sets meet. */
  function Authorize(user: Option<Account>, required: seq<Role>): (r: AuthorizeOutcome)
    ensures r == NotAuthorized <==> user.None?
    ensures user.Some? ==>
              (r == Allowed <==> (set x | x in required) * (set x | x in user.value.roles) != {})
    ensures r.Forbidden? ==> r.required == required
  {
    if user.None? then NotAuthorized
    else
      RolesMeet(required, user.value.roles);
      if SomeRoleHeld(required, user.value.roles) then Allowed
    else
      Forbidden(required)
  }

  /** With no required role every signed-in user is refused. */
  lemma NoRequiredRoleForbidsAll(a: Account)
    ensures Authorize(Some(a), []) == Forbidden([])
  {
  }

  /** Requiring more roles never refuses a request that was allowed. */
  lemma MoreRolesNeverRefuse(user: Option<Account>, required: seq<Role>, extra: seq<Role>)
    requires Authorize(user, required) == Allowed
    ensures Authorize(user, required + extra) == Allowed
    ensures Authorize(user, extra + required) == Allowed
  {
    var x :| x in (set x | x in required) * (set x | x in user.value.roles);
    assert x in required + extra && x in extra + required;
  }
}
