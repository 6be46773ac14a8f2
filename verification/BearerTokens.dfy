/** The Authorization header under mock authentication: the normalising middleware
    (common/middleware/normalize-bearer.middleware.ts), the guard that parses it
    (common/guards/keycloak-auth.guard.ts), and the tokens (auth/keycloak/mock-users.const.ts and
    auth/keycloak/keycloak.service.ts). */
module BearerTokens {
  import opened Outcomes
  import opened Texts

  datatype MockUser = MockUser(username: string, password: string, sub: string, roles: seq<string>)

  datatype Principal = Principal(sub: string, preferredUsername: string, roles: seq<string>)

  datatype AuthError = Unauthorized

  // ---- tokens

  function FindByUsername(users: seq<MockUser>, username: string): (user: Option<MockUser>)
    ensures user.Some? ==> user.value in users && user.value.username == username
  {
    if users == [] then None
    else if users[0].username == username then Some(users[0]) else FindByUsername(users[1..], username)
  }

  function TokenOf(username: string): string {
    "mock-" + username + "-token"
  }

  /** What `/^mock-(.+)-token$/` captures. */
  function TokenUsername(token: string): Option<string> {
    var end := |token| - 6;
    if end > 5 && token[..5] == "mock-" && token[end..] == "-token"
       && (forall i | 5 <= i < end :: !IsLineBreak(token[i])) then Some(token[5..end]) else None
  }

  function FindByToken(users: seq<MockUser>, token: string): Option<MockUser> {
    var username := TokenUsername(token);
    if username.Some? then FindByUsername(users, username.value) else None
  }

  function MockLogin(users: seq<MockUser>, username: string, password: string): Result<string, AuthError> {
    var user := FindByUsername(users, username);
    if user.None? || user.value.password != password then Err(Unauthorized) else Ok(TokenOf(user.value.username))
  }

  // ---- the header

  /** `/^bearer\s+/i` */
  predicate StartsWithBearer(token: string) {
    |token| > 6 && Lower(token[..6]) == "bearer" && IsSpace(token[6])
  }

  function WithoutBearer(token: string): (r: string)
    requires StartsWithBearer(token)
    ensures |r| < |token|
  {
    Trim(TrimStart(token[6..]))
  }

  function NormalizedToken(token: string): (r: string)
    ensures !StartsWithBearer(r)
    ensures StartsWithBearer(token) || r == token
    decreases |token|
  {
    if StartsWithBearer(token) then NormalizedToken(WithoutBearer(token)) else token
  }

  /** A missing or empty header, or one of white space only, is left alone. */
  function Normalized(header: Option<string>): Option<string> {
    if header.None? then header
    else
      var token := NormalizedToken(Trim(header.value));
      if token == "" then header else Some("Bearer " + token)
  }

  /** The token the guard reads, if the header has one. */
  function GuardToken(header: Option<string>): Option<string> {
    if header.Some? && |header.value| >= 7 && Lower(header.value[..7]) == "bearer " then
      var token := Trim(header.value[7..]);
      if token == "" then None else Some(token)
    else None
  }

  function Authenticated(users: seq<MockUser>, header: Option<string>): Option<MockUser> {
    var token := GuardToken(header);
    if token.Some? then FindByToken(users, token.value) else None
  }

  function PrincipalOf(user: MockUser): Principal {
    Principal(user.sub, user.username, user.roles)
  }

  class Request {
    var authorization: Option<string>
    var user: Option<Principal>

    constructor (authorization: Option<string>)
      ensures this.authorization == authorization && user == None
    {
      this.authorization, user := authorization, None;
    }
  }

  method NormalizeBearer(req: Request)
    modifies req`authorization
    ensures req.authorization == Normalized(old(req.authorization))
  {
    var header := req.authorization;
    if header.None? || header.value == "" {
      assert header.Some? ==> Trim(header.value) == "";
      return;
    }
    var token := Trim(header.value);
    while StartsWithBearer(token)
      invariant NormalizedToken(token) == NormalizedToken(Trim(header.value))
      decreases |token|
    {
      token := Trim(TrimStart(token[6..]));
    }
    if token != "" {
      req.authorization := Some("Bearer " + token);
    }
  }

  method CanActivate(users: seq<MockUser>, isPublic: bool, request: Request) returns (result: Result<(), AuthError>)
    modifies request`user
    ensures var user := Authenticated(users, request.authorization);
      && request.user == (if user.Some? then Some(PrincipalOf(user.value)) else old(request.user))
      && result == if user.Some? || isPublic then Ok(()) else Err(Unauthorized)
  {
    var header := request.authorization;
    var mockUser: Option<MockUser> := None;
    if header.Some? && |header.value| >= 7 && Lower(header.value[..7]) == "bearer " {
      var token := Trim(header.value[7..]);
      if token != "" {
        mockUser := FindByToken(users, token);
      }
    }
    if mockUser.Some? {
      request.user := Some(Principal(mockUser.value.sub, mockUser.value.username, mockUser.value.roles));
      return Ok(());
    }
    return if isPublic then Ok(()) else Err(Unauthorized);
  }
}
