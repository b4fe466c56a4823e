/** The authentication and authorisation dependencies of the FastAPI skill.
    JWT decoding is outside the model: each operation receives the decoded
    claims as an `Option<Payload>` (`None` when decoding fails), and the user
    database is a lookup function from user name to an optional user. */
module Auth {
  import opened Common
  import opened Text
  import SlidingWindow

  /** `UserRole`: USER ("user"), ADMIN ("admin"), MODERATOR ("moderator"). */
  datatype UserRole = Regular | Admin | Moderator

  /** The enum value, as listed in the role error message. */
  function RoleValue(role: UserRole): string
  {
    match role
    case Regular => "user"
    case Admin => "admin"
    case Moderator => "moderator"
  }

  /** An f-string of a `(str, Enum)` member: its qualified name, e.g. "UserRole.ADMIN". */
  function RoleLabel(role: UserRole): string
  {
    match role
    case Regular => "UserRole.USER"
    case Admin => "UserRole.ADMIN"
    case Moderator => "UserRole.MODERATOR"
  }

  datatype User = User(id: int, username: string, email: string, isActive: bool, role: UserRole, scopes: seq<string>)

  /** The claims of a token that decoded: `sub` (absent as `None`) and `scopes` (default empty). */
  datatype Payload = Payload(sub: Option<string>, scopes: seq<string>)

  // ---------------------------------------------------------------------
  // get_current_user
  // ---------------------------------------------------------------------

  /** The `WWW-Authenticate` value of the errors `get_current_user` raises. */
  function AuthenticateValue(requiredScopes: seq<string>): (v: string)
    ensures requiredScopes == [] ==> v == "Bearer"
    ensures requiredScopes != [] ==> v == "Bearer scope=\"" + Join(requiredScopes, " ") + "\""
  {
    if requiredScopes != [] then "Bearer scope=\"" + Join(requiredScopes, " ") + "\"" else "Bearer"
  }

  /** The scope loop: every required scope is among the token's scopes. */
  function ScopesGranted(required: seq<string>, granted: seq<string>): (ok: bool)
    ensures ok <==> forall i :: 0 <= i < |required| ==> required[i] in granted
    decreases |required|
  {
    if required == [] then true else required[0] in granted && ScopesGranted(required[1..], granted)
  }

  function CredentialsError(requiredScopes: seq<string>): HttpError
  {
    HttpError(401, "Could not validate credentials", map["WWW-Authenticate" := AuthenticateValue(requiredScopes)])
  }

  /** `get_current_user`: decode, read `sub`, look the user up, then check the scopes. */
  function GetCurrentUser(requiredScopes: seq<string>, decoded: Option<Payload>, lookup: string -> Option<User>)
    : (r: Result<User, HttpError>)
    ensures r.Ok? <==>
      && decoded.Some? && decoded.value.sub.Some? && lookup(decoded.value.sub.value).Some?
      && forall i :: 0 <= i < |requiredScopes| ==> requiredScopes[i] in decoded.value.scopes
    ensures r.Ok? ==> r.value == lookup(decoded.value.sub.value).value
    ensures decoded.None? || decoded.value.sub.None? ==> r == Err(CredentialsError(requiredScopes))
    ensures r.Err? ==> r.error.headers == map["WWW-Authenticate" := AuthenticateValue(requiredScopes)]
    ensures r.Err? ==> (r.error.status == 403 || r.error.status == 401)
    ensures r.Err? && r.error.status == 403 ==>
      && r.error.detail == "Not enough permissions"
      && decoded.Some? && decoded.value.sub.Some? && lookup(decoded.value.sub.value).Some?
    ensures decoded.Some? && decoded.value.sub.Some? && lookup(decoded.value.sub.value).None? ==>
      r == Err(CredentialsError(requiredScopes))
    ensures decoded.Some? && decoded.value.sub.Some? && lookup(decoded.value.sub.value).Some?
            && !ScopesGranted(requiredScopes, decoded.value.scopes) ==>
      r == Err(HttpError(403, "Not enough permissions", map["WWW-Authenticate" := AuthenticateValue(requiredScopes)]))
  {
    if decoded.None? || decoded.value.sub.None? then Err(CredentialsError(requiredScopes))
    else
      var user := lookup(decoded.value.sub.value);
      if user.None? then Err(CredentialsError(requiredScopes))
      else if !ScopesGranted(requiredScopes, decoded.value.scopes) then
        Err(HttpError(403, "Not enough permissions", map["WWW-Authenticate" := AuthenticateValue(requiredScopes)]))
      else Ok(user.value)
  }

  /** Asking for more scopes can only turn acceptance into refusal: whoever
      passes with `more` passes with any subset of it. */
  lemma FewerScopesStillPass(fewer: seq<string>, more: seq<string>, decoded: Option<Payload>,
                             lookup: string -> Option<User>)
    requires forall i :: 0 <= i < |fewer| ==> fewer[i] in more
    requires GetCurrentUser(more, decoded, lookup).Ok?
    ensures GetCurrentUser(fewer, decoded, lookup) == GetCurrentUser(more, decoded, lookup)
  {
    assert forall i :: 0 <= i < |more| ==> more[i] in decoded.value.scopes;
    forall i | 0 <= i < |fewer| ensures fewer[i] in decoded.value.scopes {
      assert fewer[i] in more;
      var j :| 0 <= j < |more| && more[j] == fewer[i];
      assert more[j] in decoded.value.scopes;
    }
  }

  /** `get_current_active_user`. */
  function GetCurrentActiveUser(user: User): (r: Result<User, HttpError>)
    ensures r.Ok? <==> user.isActive
    ensures r.Ok? ==> r.value == user
    ensures r.Err? ==> r.error == HttpError(400, "Inactive user", map[])
  {
    if !user.isActive then Err(HttpError(400, "Inactive user", map[])) else Ok(user)
  }

  // ---------------------------------------------------------------------
  // Role checks
  // ---------------------------------------------------------------------

  /** Python's repr of a list of strings, e.g. "['admin', 'moderator']". */
  function ReprStrings(values: seq<string>): string
  {
    "[" + Join(QuoteEach(values), ", ") + "]"
  }

  /** Each string between single quotes, as `repr` prints a plain string. */
  function QuoteEach(values: seq<string>): (r: seq<string>)
    ensures |r| == |values|
    ensures forall i :: 0 <= i < |values| ==> r[i] == "'" + values[i] + "'"
    decreases |values|
  {
    if values == [] then [] else ["'" + values[0] + "'"] + QuoteEach(values[1..])
  }

  /** The enum value of each role, in order. */
  function RoleValues(roles: seq<UserRole>): (r: seq<string>)
    ensures |r| == |roles|
    ensures forall i :: 0 <= i < |roles| ==> r[i] == RoleValue(roles[i])
    decreases |roles|
  {
    if roles == [] then [] else [RoleValue(roles[0])] + RoleValues(roles[1..])
  }

  /** The checker that `require_roles(*roles)` builds, applied to the current user. */
  function RequireRoles(roles: seq<UserRole>, user: User): (r: Result<User, HttpError>)
    ensures r.Ok? <==> user.role in roles
    ensures r.Ok? ==> r.value == user
    ensures r.Err? ==> r.error.status == 403 && r.error.headers == map[]
    ensures r.Err? ==>
      r.error.detail == "Role " + RoleLabel(user.role) + " not authorized. Required: " + ReprStrings(RoleValues(roles))
  {
    if user.role !in roles then
      Err(HttpError(403, "Role " + RoleLabel(user.role) + " not authorized. Required: " + ReprStrings(RoleValues(roles)), map[]))
    else Ok(user)
  }

  /** `get_admin_user`. */
  function GetAdminUser(user: User): (r: Result<User, HttpError>)
    ensures r.Ok? <==> user.role == Admin
    ensures r.Ok? ==> r.value == user
    ensures r.Err? ==> r.error == HttpError(403, "Admin access required", map[])
  {
    if user.role != Admin then Err(HttpError(403, "Admin access required", map[])) else Ok(user)
  }

  /** The admin check admits exactly whom `require_roles(UserRole.ADMIN)` admits;
      only the error text differs. */
  lemma AdminUserIsRequireAdmin(user: User)
    ensures GetAdminUser(user).Ok? <==> RequireRoles([Admin], user).Ok?
    ensures GetAdminUser(user).Ok? ==> GetAdminUser(user) == RequireRoles([Admin], user)
  {
  }

  /** `verify_resource_owner`: the owner or an admin. */
  function VerifyResourceOwner(resourceOwnerId: int, user: User): (r: Result<User, HttpError>)
    ensures r.Err? <==> user.id != resourceOwnerId && user.role != Admin
    ensures r.Ok? ==> r.value == user
    ensures r.Err? ==> r.error == HttpError(403, "Not authorized to access this resource", map[])
  {
    if user.id != resourceOwnerId && user.role != Admin then
      Err(HttpError(403, "Not authorized to access this resource", map[]))
    else Ok(user)
  }

  // ---------------------------------------------------------------------
  // API keys and combined authentication
  // ---------------------------------------------------------------------

  /** A key is accepted when it is given, non-empty (truthy) and equal to the configured key. */
  predicate KeyMatches(given: Option<string>, configured: string)
  {
    given.Some? && given.value != "" && given.value == configured
  }

  /** `get_api_key`: the `X-API-Key` header is tried first, then the `api_key`
      query parameter. `configured` stands for the `API_KEY` setting. */
  function GetApiKey(header: Option<string>, query: Option<string>, configured: string): (r: Result<string, HttpError>)
    ensures r.Ok? <==> KeyMatches(header, configured) || KeyMatches(query, configured)
    ensures KeyMatches(header, configured) ==> r == Ok(header.value)
    ensures !KeyMatches(header, configured) && KeyMatches(query, configured) ==> r == Ok(query.value)
    ensures r.Ok? ==> r.value == configured && r.value != ""
    ensures r.Err? ==> r.error == HttpError(401, "Invalid or missing API key", map[])
  {
    if KeyMatches(header, configured) then Ok(header.value)
    else if KeyMatches(query, configured) then Ok(query.value)
    else Err(HttpError(401, "Invalid or missing API key", map[]))
  }

  /** An empty configured key accepts nothing, because an empty key is falsy. */
  lemma EmptyConfiguredKeyRejectsAll(header: Option<string>, query: Option<string>)
    ensures GetApiKey(header, query, "").Err?
  {
  }

  /** The scheme and the token of a parsed `Authorization` header. */
  datatype Credentials = Credentials(scheme: string, token: string)

  /** The user a bearer header identifies, if any: scheme "bearer" in any
      letter case, a token that decodes, a non-empty `sub`, and a known user. */
  function BearerUser(credentials: Option<Credentials>, decoded: Option<Payload>, lookup: string -> Option<User>)
    : (u: Option<User>)
    ensures u.Some? ==> decoded.Some? && decoded.value.sub.Some? && decoded.value.sub.value != ""
                        && u == lookup(decoded.value.sub.value)
    ensures credentials.None? ==> u.None?
    ensures u.Some? ==> credentials.Some? && ToLower(credentials.value.scheme) == "bearer"
    ensures credentials.Some? && ToLower(credentials.value.scheme) == "bearer"
            && decoded.Some? && decoded.value.sub.Some? && decoded.value.sub.value != "" ==>
      u == lookup(decoded.value.sub.value)
  {
    if credentials.Some? && ToLower(credentials.value.scheme) == "bearer"
       && decoded.Some? && decoded.value.sub.Some? && decoded.value.sub.value != ""
    then lookup(decoded.value.sub.value)
    else None
  }

  /** `get_current_user_or_api_key`: a user from the bearer token, else `None`
      for a valid API key (a service account), else 401. `decoded` is the
      decoding of the bearer token. */
  function GetCurrentUserOrApiKey(credentials: Option<Credentials>, decoded: Option<Payload>, apiKey: Option<string>,
                                  configured: string, lookup: string -> Option<User>)
    : (r: Result<Option<User>, HttpError>)
    ensures BearerUser(credentials, decoded, lookup).Some? ==> r == Ok(BearerUser(credentials, decoded, lookup))
    ensures BearerUser(credentials, decoded, lookup).None? && KeyMatches(apiKey, configured) ==> r == Ok(None)
    ensures r.Err? <==> BearerUser(credentials, decoded, lookup).None? && !KeyMatches(apiKey, configured)
    ensures r.Err? ==> r.error == HttpError(401, "Invalid authentication credentials", map["WWW-Authenticate" := "Bearer"])
  {
    var user := BearerUser(credentials, decoded, lookup);
    if user.Some? then Ok(user)
    else if KeyMatches(apiKey, configured) then Ok(None)
    else Err(HttpError(401, "Invalid authentication credentials", map["WWW-Authenticate" := "Bearer"]))
  }

  /** A valid JWT for a known user wins whatever API key comes with it, and
      it is the user `get_current_user` finds for the same token when the
      route asks for no scopes (provided its `sub` is not empty). */
  lemma JwtUserWins(scheme: string, token: string, decoded: Option<Payload>, apiKey: Option<string>,
                    configured: string, lookup: string -> Option<User>)
    requires ToLower(scheme) == "bearer"
    requires GetCurrentUser([], decoded, lookup).Ok? && decoded.value.sub.value != ""
    ensures GetCurrentUserOrApiKey(Some(Credentials(scheme, token)), decoded, apiKey, configured, lookup)
         == Ok(Some(GetCurrentUser([], decoded, lookup).value))
  {
  }

  /** A scheme in any letter case that lowers to "bearer" is treated like "Bearer". */
  lemma BearerSchemeCaseInsensitive(scheme: string, token: string, decoded: Option<Payload>,
                                    lookup: string -> Option<User>)
    requires ToLower(scheme) == "bearer"
    ensures BearerUser(Some(Credentials(scheme, token)), decoded, lookup)
         == BearerUser(Some(Credentials("Bearer", token)), decoded, lookup)
  {
    LowerBearer("Bearer");
  }

  /** Every capitalisation of "bearer" lowers to it. */
  lemma LowerBearer(scheme: string)
    requires |scheme| == 6
    requires scheme[0] in "Bb" && scheme[1] in "Ee" && scheme[2] in "Aa"
    requires scheme[3] in "Rr" && scheme[4] in "Ee" && scheme[5] in "Rr"
    ensures ToLower(scheme) == "bearer"
  {
  }

  /** `get_optional_user`: the user of a token, or `None` when there is no
      (or an empty) token, it does not decode, or `sub` is missing or empty. */
  function GetOptionalUser(token: Option<string>, decoded: Option<Payload>, lookup: string -> Option<User>)
    : (u: Option<User>)
    ensures token.None? || token.value == "" ==> u.None?
    ensures u.Some? ==> decoded.Some? && decoded.value.sub.Some? && decoded.value.sub.value != ""
                        && u == lookup(decoded.value.sub.value)
  {
    if token.None? || token.value == "" then None
    else if decoded.Some? && decoded.value.sub.Some? && decoded.value.sub.value != "" then lookup(decoded.value.sub.value)
    else None
  }

  /** For a token with a non-empty `sub`, the optional dependency finds exactly
      the user the mandatory one (with no scopes required) returns. They differ
      on an empty `sub`: `get_current_user` looks it up, the optional one does not. */
  lemma OptionalUserAgreesWithCurrentUser(token: string, decoded: Option<Payload>, lookup: string -> Option<User>, user: User)
    requires token != ""
    requires decoded.Some? && decoded.value.sub.Some? && decoded.value.sub.value != ""
    ensures GetOptionalUser(Some(token), decoded, lookup) == Some(user)
        <==> GetCurrentUser([], decoded, lookup) == Ok(user)
  {
  }

  // ---------------------------------------------------------------------
  // rate_limit
  // ---------------------------------------------------------------------

  /** `RATE_LIMIT`, requests per window for anonymous clients. */
  const BaseRateLimit: int := 100

  /** The bucket a request is counted in: `user:<id>` when authenticated, else `ip:<host>`. */
  function RateKey(currentUser: Option<User>, host: string): string
  {
    if currentUser.Some? then "user:" + IntToString(currentUser.value.id) else "ip:" + host
  }

  /** Twice the limit for authenticated users. */
  function RateLimitFor(currentUser: Option<User>): int
  {
    if currentUser.Some? then BaseRateLimit * 2 else BaseRateLimit
  }

  predicate IsUserKey(key: string) { "user:" <= key }

  /** The limit a bucket is ever counted against, read off its key. */
  function KeyLimit(key: string): int
  {
    if IsUserKey(key) then BaseRateLimit * 2 else BaseRateLimit
  }

  /** Buckets never mix: an authenticated user's bucket is not an IP bucket,
      different user ids have different buckets, and the key tells the limit. */
  lemma RateKeysSeparate(u1: User, u2: User, host1: string, host2: string)
    ensures RateKey(Some(u1), host1) != RateKey(None, host2)
    ensures RateKey(Some(u1), host1) == RateKey(Some(u2), host2) ==> u1.id == u2.id
    ensures KeyLimit(RateKey(Some(u1), host1)) == RateLimitFor(Some(u1)) == 200
    ensures KeyLimit(RateKey(None, host2)) == RateLimitFor(None) == 100
  {
    var k1, k2 := RateKey(Some(u1), host1), RateKey(None, host2);
    assert k1[0] == 'u' && k2[0] == 'i';
    assert !IsUserKey(k2);
    if k1 == RateKey(Some(u2), host2) {
      assert k1[5..] == IntToString(u1.id);
      assert RateKey(Some(u2), host2)[5..] == IntToString(u2.id);
      IntToStringInjective(u1.id, u2.id);
    }
  }

  /** The limit read off a bucket's key is the limit its requests are counted against. */
  lemma KeyLimitOfRateKey(currentUser: Option<User>, host: string)
    ensures KeyLimit(RateKey(currentUser, host)) == RateLimitFor(currentUser)
  {
    var key := RateKey(currentUser, host);
    if currentUser.None? {
      assert key[0] == 'i';
    }
  }

  const RateLimitExceeded: HttpError :=
    HttpError(429, "Rate limit exceeded", map["Retry-After" := "60"])

  /** The module-level `request_counts` dictionary of the `rate_limit` dependency. */
  class RequestCounts {
    var counts: map<string, seq<int>>

    /** No bucket ever holds more times than its own limit. */
    ghost predicate Valid()
      reads this
    {
      forall key :: key in counts ==> |counts[key]| <= KeyLimit(key)
    }

    function History(key: string): seq<int>
      reads this
    {
      if key in counts then counts[key] else []
    }

    constructor ()
      ensures Valid() && counts == map[]
    {
      counts := map[];
    }

    /** `rate_limit` for a request from `host` by `currentUser` (the result of
        `get_optional_user`) at time `now`. */
    method RateLimit(currentUser: Option<User>, host: string, now: int) returns (r: Outcome<HttpError>)
      requires Valid()
      modifies this
      ensures Valid()
      ensures var key := RateKey(currentUser, host);
        var step := SlidingWindow.Advance(old(History(key)), now, RateLimitFor(currentUser));
        && counts == old(counts)[key := step.history]
        && r == (if step.admitted then Pass else Fail(RateLimitExceeded))
    {
      var key: string;
      var limit: int;
      if currentUser.Some? {
        key := "user:" + IntToString(currentUser.value.id);
        limit := BaseRateLimit * 2;
      } else {
        key := "ip:" + host;
        limit := BaseRateLimit;
      }
      assert key == RateKey(currentUser, host) && limit == RateLimitFor(currentUser);
      KeyLimitOfRateKey(currentUser, host);
      var windowStart := now - SlidingWindow.Window;
      ghost var step := SlidingWindow.Advance(History(key), now, limit);
      var kept := SlidingWindow.Prune(History(key), windowStart);
      counts := counts[key := kept];
      if |kept| >= limit {
        assert counts == old(counts)[key := step.history];
        return Fail(RateLimitExceeded);
      }
      counts := counts[key := kept + [now]];
      assert counts == old(counts)[key := step.history];
      r := Pass;
    }
  }
}
