# Decision and bookkeeping logic of the FastAPI and FastMCP skill examples

This project models, in Dafny, the small core of logic inside the example
applications of the skills repository.

- Two sliding-window rate limiters:
  - `RateLimitMiddleware` counts requests per client IP against a configurable limit.
  - the `rate_limit` dependency counts per user (limit 200) or per IP (limit 100).
  - Both keep a map from a key to the times of its admitted requests. Each
    request drops the times no later than `now - 60`. It is then refused with
    429 when the window is full; otherwise `now` is recorded.
- The access-control decisions of the FastAPI examples:
  - the global bearer-header middleware, with its excluded paths;
  - the scope check of `get_current_user`;
  - the active-user, role, admin-only and owner-or-admin checks;
  - API keys from a header or a query parameter;
  - JWT-or-API-key authentication and optional authentication.
- The security-headers step. A response's headers are stored under lower-cased
  names, as Starlette stores them, so an assignment replaces a header set
  earlier in any letter case.
- The items CRUD router:
  - pagination arithmetic;
  - the owner check;
  - item creation;
  - the merge of only the fields a PUT/PATCH request sets;
  - the availability toggle.
- The in-memory customer and order stores of the e-commerce MCP server: creation,
  lookup, filtered search with a limit, order placement, bulk processing, counts,
  per-customer listing and the order-id slice.
- The tools and prompts of the basic MCP server: `add`, `greet`, `get_length`,
  `explain_topic` and `summarize_text`.

Each part of the source becomes Dafny code of the same kind.

- Stateful objects become classes whose methods state their whole new state:
  - `RateLimitMiddleware`
  - the `request_counts` dictionary
  - `Item`
  - the server's `customers_db`/`orders_db`
- The loops stay loops, with invariants:
  - the set-field update loop
  - `search_customers` with its early `break`
  - `process_bulk_orders`
- Decisions that return or raise become functions returning `Result`, `Outcome`
  or `Verdict`. An `HTTPException` becomes `HttpError(status, detail, headers)`.
  A `ValueError` becomes `Err(message)`.

Things that come from outside the code are parameters:

- The current time is an integer number of seconds.
- The result of decoding a JWT is an `Option<Payload>`; `None` stands for `JWTError`.
- The user database is a lookup function from user name to an optional user.
- The random hex digits of a new id (`uuid.uuid4().hex`) are a string.
- The configured `API_KEY` is a string.

Python's built-ins are written out in `text.dfy` and `seqs.dfy`:

- `str(int)`, `lower`, `join`, `split()` and `splitlines()`
- list comprehensions and slices, including a negative slice bound
- insertion-ordered dictionaries, in `ordered_map.dfy`

## Model

| member | source | states |
|---|---|---|
| `Text.NatToString` | skills/fastapi/examples/auth_dependencies.py:295 | a decimal numeral: at least one digit, all digits, no leading zero |
| `Text.DigitsValueOfNatToString` | skills/fastapi/examples/auth_dependencies.py:295 | reading the printed numeral back gives the number |
| `Text.IntToString` | skills/fastapi/examples/auth_dependencies.py:295 | `str(i)`: non-empty, starts with a digit exactly for non-negative numbers |
| `Text.IntToStringInjective` | skills/fastapi/examples/auth_dependencies.py:295 | different integers print differently |
| `Text.ToLower` | skills/fastmcp/examples/full_server.py:136 | same length; each ASCII capital is lowered and every other character kept |
| `Text.Split` | skills/fastmcp/examples/basic_server.py:74 | `str.split()` words are non-empty and contain no whitespace |
| `Text.SplitEmptyIffBlank` | skills/fastmcp/examples/basic_server.py:74 | a text has no words exactly when it is empty or all whitespace |
| `Text.SplitJoin` | skills/fastmcp/examples/basic_server.py:74 | splitting words joined by single spaces gives the words back |
| `Text.SplitLines` | skills/fastmcp/examples/basic_server.py:75 | `splitlines()` pieces have no line break; at most as many as characters; at least one for non-empty text |
| `Text.SplitLinesJoin` | skills/fastmcp/examples/basic_server.py:75 | splitting lines joined by line feeds, last line non-empty, gives the lines back |
| `Seqs.Filter` | skills/fastmcp/examples/full_server.py:291-295 | a comprehension keeps only elements of the input that satisfy the condition, and is no longer than the input |
| `Seqs.FilterComplete` | skills/fastmcp/examples/full_server.py:291-295 | every element satisfying the condition is kept |
| `Seqs.FilterIsSubsequence` | skills/fastmcp/examples/full_server.py:291-295 | the comprehension keeps the input order |
| `Seqs.FilterPrefixTake` | skills/fastmcp/examples/full_server.py:139-142 | once a filtered prefix holds `n` results, they are the first `n` of the whole filter |
| `Seqs.Take` | skills/fastmcp/examples/full_server.py:141-142 | a prefix holding the first `n` elements, or all of them when there are fewer |
| `Seqs.PrefixSlice` | skills/fastmcp/examples/full_server.py:310 | Python `s[:k]`: a prefix holding the first `k` elements (all when fewer), or everything but the last `-k` for negative `k` |
| `SlidingWindow.Prune` | skills/fastapi/examples/middleware_examples.py:170-172 | pruning only shortens the list and leaves only times later than the window start |
| `SlidingWindow.PruneIsFilter` | skills/fastapi/examples/middleware_examples.py:170-172 | the pruned list is the comprehension `[t for t in history if t > window_start]`, in history order |
| `SlidingWindow.PruneComplete` | skills/fastapi/examples/middleware_examples.py:170-172 | every time later than the window start survives pruning |
| `SlidingWindow.PruneLater` | skills/fastapi/examples/middleware_examples.py:166-172 | pruning at an earlier start then a later one equals pruning at the later one |
| `SlidingWindow.Advance` | skills/fastapi/examples/middleware_examples.py:166-184 | admitted iff the pruned count is below the limit; an admitted request ends the list with `now` and keeps it within the limit; a refused one appends nothing; every kept time is in the window |
| `SlidingWindow.AdvanceHistory` | skills/fastapi/examples/middleware_examples.py:170-184 | the new list is exactly the old times later than `now - 60`, in their order, followed by `now` when the request is admitted and by nothing when it is refused |
| `SlidingWindow.Replay` | skills/fastapi/examples/middleware_examples.py:159-186 | after any run of requests the list never exceeds the limit |
| `SlidingWindow.ReplayHistoryIsRecentAdmitted` | skills/fastapi/examples/middleware_examples.py:159-186 | with time not running backwards, the stored list is exactly the admitted requests of the last 60 seconds |
| `SlidingWindow.RateLimitGuarantee` | skills/fastapi/examples/middleware_examples.py:175-184 | no 60-second window ending at a request holds more admitted requests than the limit |
| `Middleware.PathsOrDefault` | skills/fastapi/examples/middleware_examples.py:155 | `paths or default`: a missing or empty list gives the default, any other list is kept |
| `Middleware.RateLimitMiddleware.constructor` | skills/fastapi/examples/middleware_examples.py:147-157 | stores the limit, the excluded paths or the defaults, and an empty count map |
| `Middleware.NewDefaultRateLimitMiddleware` | skills/fastapi/examples/middleware_examples.py:150-155 | without arguments: 60 per minute, excluded paths exactly `/health`, `/docs`, `/openapi.json` |
| `Middleware.RateLimitMiddleware.Dispatch` | skills/fastapi/examples/middleware_examples.py:159-186 | an excluded path passes and changes nothing; otherwise only the client's list changes, to the result of one `Advance`; 429 with `Retry-After: 60` exactly when refused; every list stays within the limit |
| `Middleware.AuthenticationMiddleware.Dispatch` | skills/fastapi/examples/middleware_examples.py:214-241 | passes iff the path is excluded or the header starts with `"Bearer "`; a missing or empty header gives 401 "Missing authorization header", any other header 401 "Invalid authorization header" |
| `Middleware.NewAuthenticationMiddleware` | skills/fastapi/examples/middleware_examples.py:199-212 | without a list, or with an empty one, the six default paths (`/`, docs, OpenAPI, health, login, registration) are excluded; a non-empty list is kept as given |
| `Middleware.DefaultAuthenticationPolicy` | skills/fastapi/examples/middleware_examples.py:205-241 | with the default paths, a request passes iff its path is one of the six defaults or it carries a bearer header |
| `Middleware.SetHeaderSets` | skills/fastapi/examples/middleware_examples.py:255 | after `headers[name] = value` the name gives `value` in whatever letter case it is looked up |
| `Middleware.SetHeaderKeeps` | skills/fastapi/examples/middleware_examples.py:255 | `headers[name] = value` leaves every header whose lower-cased name differs as it was |
| `Middleware.SetHeaderLowerCase` | skills/fastapi/examples/middleware_examples.py:255 | the header store keeps every name lower-cased, as Starlette stores them |
| `Middleware.SecuredSets` | skills/fastapi/examples/middleware_examples.py:254-261 | after the step each of the seven headers, looked up in any letter case, has its fixed value |
| `Middleware.SecuredKeeps` | skills/fastapi/examples/middleware_examples.py:254-261 | every header not among the seven (in any letter case) is kept with its value |
| `Middleware.SecuredLowerCase` | skills/fastapi/examples/middleware_examples.py:254-261 | the step keeps the stored names lower-cased |
| `Middleware.SecuredAnyCase` | skills/fastapi/examples/middleware_examples.py:254-261 | whatever spelling a security header is looked up in, it has the fixed value of its canonical name |
| `Middleware.SecuredReplacesStoredVariant` | skills/fastapi/examples/middleware_examples.py:254-261 | a security header stored earlier under its lower-cased name is overwritten in place by the fixed value, not kept beside it |
| `Middleware.SecuredIdempotent` | skills/fastapi/examples/middleware_examples.py:254-261 | applying the step twice is applying it once |
| `Middleware.AddSecurityHeaders` | skills/fastapi/examples/middleware_examples.py:251-263 | the seven assignments, made in the source's order, leave the response's headers equal to `Secured` of the old headers (so the facts above hold of them) and its status unchanged |
| `Auth.AuthenticateValue` | skills/fastapi/examples/auth_dependencies.py:79-82 | `Bearer` with no required scopes, else `Bearer scope="…"` with the scopes joined by spaces |
| `Auth.ScopesGranted` | skills/fastapi/examples/auth_dependencies.py:107-113 | true iff every required scope is among the token's scopes |
| `Auth.GetCurrentUser` | skills/fastapi/examples/auth_dependencies.py:71-115 | returns the looked-up user iff the token decodes, has a `sub`, names a known user and grants every required scope; a failed decode or missing `sub` yields 401 "Could not validate credentials"; an unknown user yields the same 401; a known user missing a required scope yields 403 "Not enough permissions", and only such a user; every error carries the `WWW-Authenticate` value |
| `Auth.FewerScopesStillPass` | skills/fastapi/examples/auth_dependencies.py:107-113 | a token accepted for some scopes is accepted, with the same user, for any subset of them |
| `Auth.GetCurrentActiveUser` | skills/fastapi/examples/auth_dependencies.py:118-127 | an active user is returned unchanged, an inactive one gets 400 "Inactive user" |
| `Auth.RequireRoles` | skills/fastapi/examples/auth_dependencies.py:134-151 | admits the user iff the user's role is among the roles; otherwise 403 naming the role and listing the required role values |
| `Auth.GetAdminUser` | skills/fastapi/examples/auth_dependencies.py:154-163 | admits the user iff the role is ADMIN; otherwise 403 "Admin access required" |
| `Auth.AdminUserIsRequireAdmin` | skills/fastapi/examples/auth_dependencies.py:144-163 | the admin check admits exactly the users `require_roles(ADMIN)` admits |
| `Auth.VerifyResourceOwner` | skills/fastapi/examples/auth_dependencies.py:321-341 | 403 "Not authorized to access this resource" iff the user is neither the owner nor an admin; otherwise the user |
| `Auth.GetApiKey` | skills/fastapi/examples/auth_dependencies.py:193-207 | succeeds iff the header or the query key is non-empty and equals the configured key; a matching header wins; the result is the configured key; otherwise 401 "Invalid or missing API key" |
| `Auth.EmptyConfiguredKeyRejectsAll` | skills/fastapi/examples/auth_dependencies.py:200-207 | an empty configured key accepts no request |
| `Auth.BearerUser` | skills/fastapi/examples/auth_dependencies.py:227-236 | a user only for credentials whose scheme lowers to `bearer` and whose token decodes with a non-empty `sub`, and then the looked-up user; for every such credential the result is the lookup of `sub` |
| `Auth.GetCurrentUserOrApiKey` | skills/fastapi/examples/auth_dependencies.py:217-246 | a valid JWT user wins; otherwise a matching API key gives `None`; otherwise 401 "Invalid authentication credentials" with `WWW-Authenticate: Bearer`, and only then |
| `Auth.JwtUserWins` | skills/fastapi/examples/auth_dependencies.py:226-234 | a bearer credential (any letter case) whose token decodes to a known user with a non-empty `sub` returns that user, whatever API key is sent, and it is the user `get_current_user` returns for the token when no scope is required |
| `Auth.BearerSchemeCaseInsensitive` | skills/fastapi/examples/auth_dependencies.py:227 | every scheme whose lower case is `bearer` finds the same user as `Bearer` |
| `Auth.LowerBearer` | skills/fastapi/examples/auth_dependencies.py:227 | every capitalisation of `bearer` lowers to `bearer` |
| `Auth.GetOptionalUser` | skills/fastapi/examples/auth_dependencies.py:253-271 | no token or an empty one gives `None`; a user only for a decoded non-empty `sub`, and then the looked-up user |
| `Auth.OptionalUserAgreesWithCurrentUser` | skills/fastapi/examples/auth_dependencies.py:90-104 | for a token with a non-empty `sub`, the optional dependency finds a user iff `get_current_user` without scopes returns that user |
| `Auth.RateKeysSeparate` | skills/fastapi/examples/auth_dependencies.py:294-299 | user buckets and IP buckets never coincide, different user ids never share a bucket, and a bucket's key determines its limit (200 or 100) |
| `Auth.KeyLimitOfRateKey` | skills/fastapi/examples/auth_dependencies.py:294-299 | the limit read off a bucket's key is the limit that request is counted against: 200 for a user, 100 for an address |
| `Auth.RequestCounts.constructor` | skills/fastapi/examples/auth_dependencies.py:281 | the counts start empty |
| `Auth.RequestCounts.RateLimit` | skills/fastapi/examples/auth_dependencies.py:286-314 | only the request's bucket changes, by one `Advance` with limit 200 for a user and 100 otherwise; 429 "Rate limit exceeded" with `Retry-After: 60` exactly when refused; every bucket stays within its limit |
| `Crud.Offset` | skills/fastapi/examples/crud_router.py:103-104 | the offset is non-negative and exactly `page - 1` pages of `per_page` items |
| `Crud.PageCount` | skills/fastapi/examples/crud_router.py:140 | zero iff there are no items; otherwise `(pages - 1) * per_page < total <= pages * per_page` |
| `Crud.PageCountIsLeast` | skills/fastapi/examples/crud_router.py:140 | the page count is the only number satisfying those bounds, so it is the ceiling |
| `Crud.PagesCoverTotal` | skills/fastapi/examples/crud_router.py:130-140 | pages 1 to `pages` start inside the result set; any later page starts past it |
| `Crud.UpdateDataFields` | skills/fastapi/examples/crud_router.py:215 | `model_dump(exclude_unset=True)` lists each set field with its value, and nothing unset |
| `Crud.Merged` | skills/fastapi/examples/crud_router.py:215-218 | an update never changes the id or the owner |
| `Crud.AssignAllUpdateData` | skills/fastapi/examples/crud_router.py:215-218 | running the `setattr` loop over the set fields gives the field-by-field merge |
| `Crud.MergedChangesOnlySetFields` | skills/fastapi/examples/crud_router.py:215-218 | each set field takes the new value and every other field keeps its old one |
| `Crud.MergedLaws` | skills/fastapi/examples/crud_router.py:215-218 | an empty body changes nothing; applying an update twice is applying it once |
| `Crud.Item.constructor` | skills/fastapi/examples/crud_router.py:193-196 | the item holds the given fields and owner |
| `Crud.Item.SetField` | skills/fastapi/examples/crud_router.py:218 | `setattr` changes exactly the named field |
| `Crud.VerifyItemOwner` | skills/fastapi/examples/crud_router.py:83-93 | 403 "Not authorized to access this item" iff the item's owner is not the user |
| `Crud.ItemOwnerStricterThanResourceOwner` | skills/fastapi/examples/crud_router.py:88-92 | passing the item check implies passing `verify_resource_owner`; an admin who is not the owner passes only the latter |
| `Crud.CreateItem` | skills/fastapi/examples/crud_router.py:180-200 | the new item has the input's fields and the current user as owner |
| `Crud.UpdateItem` | skills/fastapi/examples/crud_router.py:203-243 | PUT and PATCH: a non-owner changes nothing; for the owner the item becomes the merge of the old item and the set fields |
| `Crud.Toggled` | skills/fastapi/examples/crud_router.py:274 | `is_available` is negated and every other field kept |
| `Crud.ToggledTwice` | skills/fastapi/examples/crud_router.py:274 | toggling twice restores the item |
| `Crud.ToggleItemAvailability` | skills/fastapi/examples/crud_router.py:268-277 | a non-owner changes nothing; for the owner the item becomes its toggle |
| `OrderedMaps.OrderedMap.Put` | skills/fastmcp/examples/full_server.py:87 | assignment maps the key to the value; a new key goes last, an existing key keeps its place |
| `OrderedMaps.OrderedMap.Entries` | skills/fastmcp/examples/full_server.py:133 | `items()` lists every key in insertion order with its value |
| `OrderedMaps.Empty` | skills/fastmcp/examples/full_server.py:71-72 | a new store is empty |
| `OrderedMaps.PutValid` | skills/fastmcp/examples/full_server.py:87 | assignment keeps every key listed once and exactly the mapped keys listed |
| `OrderedMaps.DistinctCardinality` | skills/fastmcp/examples/full_server.py:263 | a list of distinct keys has as many keys as elements |
| `OrderedMaps.CountIsSize` | skills/fastmcp/examples/full_server.py:263 | `len` is the number of mapped keys |
| `OrderedMaps.PutCount` | skills/fastmcp/examples/full_server.py:87 | assigning a new key adds exactly one entry; an existing key keeps the size |
| `FullServer.CustomerId` | skills/fastmcp/examples/full_server.py:86 | a customer id is `cust_` followed by the first eight characters of the given hex string (all of it when shorter) |
| `FullServer.OrderId` | skills/fastmcp/examples/full_server.py:166 | an order id is `ord_` followed by the first eight characters of the given hex string (all of it when shorter) |
| `FullServer.CustomerAndOrderIdsDiffer` | skills/fastmcp/examples/full_server.py:86-166 | customer and order ids never coincide |
| `FullServer.SearchProperties` | skills/fastmcp/examples/full_server.py:131-144 | at most `limit` results, each matching the tier and (case-insensitively) the city, in store order; a matching customer is left out only once the limit is reached |
| `FullServer.Place` | skills/fastmcp/examples/full_server.py:163-176 | an unknown customer gives "Customer not found: <id>" and leaves the orders unchanged; otherwise the order is stored under its new id and the confirmation counts its items |
| `FullServer.BulkCounts` | skills/fastmcp/examples/full_server.py:226-253 | successes plus failures equal the batch size; failure indices lie in the batch and increase |
| `FullServer.BulkFailureReasons` | skills/fastmcp/examples/full_server.py:233-238 | each failure records the index of its order and the not-found message for its customer |
| `FullServer.BulkFailsIffUnknown` | skills/fastmcp/examples/full_server.py:229-238 | an order fails exactly when its customer is unknown |
| `FullServer.Server.constructor` | skills/fastmcp/examples/full_server.py:71-72 | both stores start empty |
| `FullServer.Server.CreateCustomer` | skills/fastmcp/examples/full_server.py:75-93 | stores the customer under `cust_<hex>` (replacing a clash), changes nothing else, and `get_customer` then finds it |
| `FullServer.Server.GetCustomer` | skills/fastmcp/examples/full_server.py:96-112 | the stored customer iff the id is present, else "Customer not found: <id>"; reads only |
| `FullServer.Server.GetCustomerResource` | skills/fastmcp/examples/full_server.py:272-281 | finds the same customers as `get_customer`, answering "Customer not found" otherwise |
| `FullServer.SearchEntries` | skills/fastmcp/examples/full_server.py:131-144 | the loop with its `break` returns the first `limit` matching entries, in order |
| `FullServer.Server.SearchCustomers` | skills/fastmcp/examples/full_server.py:115-144 | the search runs over the store's entries in insertion order and changes nothing |
| `FullServer.Server.PlaceOrder` | skills/fastmcp/examples/full_server.py:151-181 | behaves as `Place` on the stores, never touches the customers, and `get_order` then finds the new order |
| `FullServer.Server.GetOrder` | skills/fastmcp/examples/full_server.py:184-197 | the stored order iff the id is present, else "Order not found: <id>"; reads only |
| `FullServer.Server.ProcessBulkOrders` | skills/fastmcp/examples/full_server.py:211-253 | the loop of `place_order` calls leaves the stores and the summary as the batch run describes |
| `FullServer.Server.CustomerCount` | skills/fastmcp/examples/full_server.py:260-263 | the number of stored customers |
| `FullServer.Server.OrderCount` | skills/fastmcp/examples/full_server.py:266-269 | the number of stored orders |
| `FullServer.Server.GetCustomerOrders` | skills/fastmcp/examples/full_server.py:284-295 | every listed order is a stored order of that customer |
| `FullServer.CustomerOrdersExact` | skills/fastmcp/examples/full_server.py:291-295 | the listing holds exactly the stored orders of the customer, in store order |
| `FullServer.Server.GetOrdersByStatus` | skills/fastmcp/examples/full_server.py:298-310 | a prefix of the order ids, of length `min(limit, n)` for a non-negative limit |
| `FullServer.PlaceCount` | skills/fastmcp/examples/full_server.py:163-167 | a failed placement keeps the order count; a successful one with a new id adds exactly one |
| `BasicServer.Add` | skills/fastmcp/examples/basic_server.py:19-29 | the sum, without overflow |
| `BasicServer.Greet` | skills/fastmcp/examples/basic_server.py:46-59 | the formal or informal prefix, then the name, then the matching suffix |
| `BasicServer.GreetRoundTrip` | skills/fastmcp/examples/basic_server.py:57-59 | the name can be read back, so different names never get the same greeting |
| `BasicServer.GreetingsDiffer` | skills/fastmcp/examples/basic_server.py:57-59 | a formal greeting is never an informal one |
| `BasicServer.GetLength` | skills/fastmcp/examples/basic_server.py:62-76 | characters equal the length; lines are at least one |
| `BasicServer.GetLengthOfBlank` | skills/fastmcp/examples/basic_server.py:74-75 | zero words iff the text is blank; empty text gives 0, 0, 1 |
| `BasicServer.GetLengthCountsWords` | skills/fastmcp/examples/basic_server.py:74 | words joined by spaces are counted one by one |
| `BasicServer.GetLengthCountsLines` | skills/fastmcp/examples/basic_server.py:75 | lines joined by line feeds are counted one by one |
| `BasicServer.ExplainTopic` | skills/fastmcp/examples/basic_server.py:115-122 | the fixed prefix, the topic, the fixed suffix |
| `BasicServer.ExplainTopicInjective` | skills/fastmcp/examples/basic_server.py:122 | different topics give different prompts |
| `BasicServer.SummarizeText` | skills/fastmcp/examples/basic_server.py:125-133 | the prompt contains the printed sentence limit and ends with a blank line and the text |
| `BasicServer.SummarizeTextInjective` | skills/fastmcp/examples/basic_server.py:133 | the prompt determines both the text and the sentence limit |

## Left out

- The `asyncio.Lock` of `RateLimitMiddleware`: concurrency. Each dispatch is one atomic step.
- ASGI plumbing (`call_next`, `Request`, `Response` objects).
  - A request is reduced to its path, client host and headers.
  - A response is reduced to its status and headers.
- The remaining middleware classes and their wiring in `create_app`:
  - request id, timing, logging, error handling, database session, CORS, GZip, trusted hosts;
  - these are framework wiring, clocks and logging.
- Floating-point times: time is a whole number of seconds.
- JWT decoding with `jose` and the signature check: a foreign library.
  - The decoded claims are an input.
  - `TokenData` validation of a non-list `scopes` claim is not modelled.
- `get_user_from_db`: an abstract lookup function.
- `require_scopes` only forwards its scopes. It is `GetCurrentUser` with those scopes required.
- The route examples at the end of `auth_dependencies.py`: framework wiring.
- `rate_limit` with a request that has no client: `request.client.host` would fail. The host is a parameter here.
- Pydantic validation: the bounds on `page` and `per_page`, and on the MCP `limit`, are preconditions. Field lengths, the e-mail format and the zip code pattern are not modelled.
- SQLAlchemy queries, `flush`, `refresh` and deletion: database I/O.
  - `get_item_or_404`, `get_item`, `delete_item` and `list_my_items` are not modelled.
  - `list_items` is modelled only for its offset and page count.
- Crud.UpdateDataFields: a request that sets `name`, `price` or `is_available` to an explicit `null` is not modelled. Only `description` can carry a null.
- `created_at` and `updated_at` of items: set by the database.
- Prices, subtotals, tax and rounding in `place_order` and `get_order`, and the `multiply` tool: floating-point arithmetic. Prices are carried but never summed.
- `created_at` of `create_customer`, `get_stats`: the clock.
- uuid generation: the hex digits are a parameter. A clash with a stored id overwrites that entry, as a dictionary assignment does.
- `ctx` logging, progress reports and `asyncio.sleep` in `process_bulk_orders`: I/O.
- FullServer.Server.ProcessBulkOrders: calls `place_order` as the plain function it decorates (full_server.py:233). A FastMCP version whose `@mcp.tool` returns a tool object instead would raise `TypeError` there, and every order would be recorded as failed. That case is not modelled.
- The prompts of the e-commerce server and the constant resources of the basic server (`get_greeting`, `get_config`): fixed text.
- `client_example.py` and `basic_agent.py`: a client over a transport and an LLM agent runner.
- Unicode: `split()` and `splitlines()` use the ASCII whitespace and line boundaries, and `lower()` only lowers ASCII capitals.
- `Auth.RoleLabel` formats a role as `UserRole.ADMIN`, which is how Python 3.11 and later format a `(str, Enum)` member in an f-string. Older versions print the value.
