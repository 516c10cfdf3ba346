# Cloudflare Access token check and in-memory item store, in Dafny

This project models two small, independent pieces of a VM-hardening repository:

- **`scripts/cloudflare-access/validate-jwt.py`** (module `CloudflareAccess`, file
  `cloudflare_access.dfy`). This validates the `Cf-Access-Jwt-Assertion` header that
  Cloudflare Access sends. The model covers:
  - the configuration gate. It lists the unset required variables, the team domain
    first, and latches a "validated" flag.
  - the one-slot public-key cache. It has a 24-hour freshness window, and a miss
    refills it wholesale from `https://<team domain>/cdn-cgi/access/certs`.
  - the first-match scan of the key list by key id (`kid`).
  - the allow/deny decisions of the `access_required` and `access_optional` Flask
    decorators and of the ASGI middleware.

  The module state is the class `AccessValidator`. Its fields are the two
  configuration values read at import, the `validated` flag, the cached key list and
  its timestamp. The current time is an integer parameter.

  The certs endpoint is the class `CertsEndpoint`. It logs every request it receives
  and answers the n-th request for a URL from an arbitrary response table, so a later
  request may get a different list or fail. "No request" and "one request" are
  statements about that log.

  Two library calls are function-valued parameters, and the contracts hold for every
  choice of them:
  - the unverified header parse,
  - the library's `decode`, which includes building the RSA key from the JWK.

- **`apps/examples/python-fastapi/src/main.py`** (module `ItemsApi`, file
  `items_api.dfy`). This is the module-level `items_db` list behind the CRUD endpoints.
  It is modelled as the class `ItemStore`, which holds the field `items: seq<Item>`.
  - `create_item` appends after a duplicate-id check.
  - `update_item` assigns at the index of the first match.
  - `delete_item` pops at that index.
  - `get_item` returns the first match.
  - `list_items` filters by `in_stock`.

  `results.dfy` holds the shared `Option` and `Result` types. An exception raised by
  the original is a `Failure` value here.

Representation choices:
- An unset key cache (`None`) is the empty list. `None` is never returned. A fetched
  empty list is returned once and is never served as a hit, so the next call requests
  the keys again.
- An environment value counts as set when it is present and non-empty, as Python's
  truthiness has it.
- A key record or a header without a `kid` entry makes the comparison raise
  `KeyError`. The model reports this as `KidLookupError` at the first comparison that
  needs the missing entry. An empty key list therefore still yields "No matching key
  found", even when the header has no `kid`.
- The header is parsed only after the key list has been obtained (lines 98-100), so a
  malformed token still needs, and may fetch, the keys.
- "No matching key found" is a plain `Exception` in the code. Here it is its own error
  value, `NoMatchingKey`, and the decorators treat it like every other failure.
- The configuration check is latched by the flag (lines 39-40). It is not re-run on
  every call, so after success it returns at once.

## Model

| member | source | states |
|---|---|---|
| `CloudflareAccess.MissingSettings` | scripts/cloudflare-access/validate-jwt.py:42-47 | `CF_TEAM_DOMAIN` is listed iff the domain is unset or empty, and `CF_AUD_TAG` iff the tag is. The domain comes first, each name appears at most once (the length is the number of unset settings), and the list is empty exactly when the configuration is complete |
| `CloudflareAccess.AccessValidator.constructor` | scripts/cloudflare-access/validate-jwt.py:30-58 | Configuration is taken as given. The flag starts false, the cache starts empty and the cache time starts at 0 |
| `CloudflareAccess.AccessValidator.ValidateConfig` | scripts/cloudflare-access/validate-jwt.py:36-54 | Succeeds iff both settings are set, and otherwise fails with `ConfigError` carrying exactly the missing list. Afterwards the flag is set iff the configuration is complete. An already-set flag returns success and leaves the flag as it was, so repeated calls are idempotent |
| `CloudflareAccess.AccessValidator.GetPublicKeys` | scripts/cloudflare-access/validate-jwt.py:62-80 | Incomplete configuration: `ConfigError`, the endpoint's request log unchanged, cache and time unchanged. Hit (non-empty list and `now - time < 86400`): the old list is returned, with the log and the cache unchanged. Miss: exactly one request to the certs URL is appended to the log. If that request's answer is a list, the cache becomes exactly that list, the time becomes `now` and the new cache is returned. If it fails, the result is `KeyFetchError` and cache and time are unchanged |
| `CloudflareAccess.CertsEndpoint.Get` | scripts/cloudflare-access/validate-jwt.py:73-77 | A request appends its URL to the endpoint's log and gets the endpoint's answer for the next request to that URL |
| `CloudflareAccess.AccessValidator.ValidateAccessJwt` | scripts/cloudflare-access/validate-jwt.py:83-113 | Same gate, cache and request-log behaviour as key retrieval, including "no request when configuration fails". The result is then exactly `VerifyWithKeys` over the key list now cached, with options RS256, audience = tag and issuer = `https://` + domain. The `for` loop is proved to stop where `FindKey` says |
| `CloudflareAccess.FindKey` | scripts/cloudflare-access/validate-jwt.py:102-103 | The scan stops at the first index whose `kid` equals the header's, or at the first comparison that needs a missing `kid`, or at the end. Every earlier key has a `kid` different from the header's |
| `CloudflareAccess.LookupUnique` | scripts/cloudflare-access/validate-jwt.py:102-113 | Only one stopping point satisfies the first-match description, so the scan is determined by it |
| `CloudflareAccess.VerifiedOnlyByFirstMatchingKey` | scripts/cloudflare-access/validate-jwt.py:102-111 | A successful validation is the decoder's output for the first key, in list order, whose `kid` equals the header's. Every key before it differs, so no non-matching key is ever used |
| `CloudflareAccess.NoMatchingKeyExactly` | scripts/cloudflare-access/validate-jwt.py:102-113 | "No matching key found" is returned iff every key has a `kid` and none equals the header's |
| `CloudflareAccess.TwoKeyRequests` | scripts/cloudflare-access/validate-jwt.py:69-80 | Two key retrievals less than 24 h apart make at most one request when the first hits the cache or its fetch yields a non-empty list. Two retrievals 24 h or more apart, the first of which misses, make exactly two requests. Without configuration the log does not change |
| `CloudflareAccess.AccessRequired` | scripts/cloudflare-access/validate-jwt.py:123-145 | The handler runs iff a non-empty token is present and validation succeeded, and it then gets the identity built from the claims. Otherwise the result is 401, with "No Cloudflare Access token provided" when there is no token and "Invalid Cloudflare Access token" on any failure |
| `CloudflareAccess.AccessOptional` | scripts/cloudflare-access/validate-jwt.py:156-172 | The handler always runs. An identity is attached iff a token is present and validation succeeded, and it is `None` otherwise, so failures are swallowed |
| `CloudflareAccess.Middleware` | scripts/cloudflare-access/validate-jwt.py:186-222 | Non-HTTP scopes pass through untouched. For HTTP the result is 401 iff the mode is required and the token is empty or invalid ("No token" / "Invalid token"). When the handler runs, the identity is email and sub on success and `None` otherwise, including an invalid token with `required=False` |
| `CloudflareAccess.NoTokenIgnoresValidation` | scripts/cloudflare-access/validate-jwt.py:123-220 | With no token, no wrapper's outcome depends on the validation result, so validation is never needed |
| `CloudflareAccess.MiddlewareAgreesWithDecorators` | scripts/cloudflare-access/validate-jwt.py:193-222 | For HTTP, required-mode middleware lets through exactly the requests `access_required` lets through. Optional-mode middleware always runs the handler and attaches an identity exactly when `access_optional` does |
| `ItemsApi.InitialIdsDistinct` | apps/examples/python-fastapi/src/main.py:75-79 | The initial store has the distinct ids 1, 2, 3 in that order |
| `ItemsApi.ItemStore.constructor` | apps/examples/python-fastapi/src/main.py:75-79 | The store starts with the three initial items, whose ids are distinct |
| `ItemsApi.FindItem` | apps/examples/python-fastapi/src/main.py:151-153 | The index found holds the id and every earlier item has a different id. There is no index iff no item has the id |
| `ItemsApi.Filter` | apps/examples/python-fastapi/src/main.py:129-130 | An item is in the result iff it is in the store with that stock flag. The result is no longer than the store |
| `ItemsApi.FilterAppend` | apps/examples/python-fastapi/src/main.py:130 | Filtering distributes over concatenation, so store order is kept |
| `ItemsApi.FilterCounts` | apps/examples/python-fastapi/src/main.py:130 | Every copy of a matching item is kept, and no copy of any other item |
| `ItemsApi.ItemStore.ListItems` | apps/examples/python-fastapi/src/main.py:129-132 | Without a filter the whole store is returned. With one, exactly the items with that `in_stock` value are returned, as the filter in store order. It only reads the store |
| `ItemsApi.ItemStore.GetItem` | apps/examples/python-fastapi/src/main.py:151-156 | Succeeds iff some item has the id, and returns the first such item. Otherwise the result is `NotFound` (404). The store is not modified |
| `ItemsApi.ItemStore.CreateItem` | apps/examples/python-fastapi/src/main.py:176-182 | A taken id gives `AlreadyExists` (400) with the store unchanged. Otherwise the item is appended at the end and returned, and everything before it is unchanged. Distinct ids stay distinct |
| `ItemsApi.ItemStore.UpdateItem` | apps/examples/python-fastapi/src/main.py:202-209 | Only the first item with the id is replaced, at the same index, and the new item is returned. The length and every other position are unchanged. Without a match the result is `NotFound` (404) with the store unchanged |
| `ItemsApi.UpdateKeepsIdsDistinct` | apps/examples/python-fastapi/src/main.py:202-206 | When the new item carries the path id, distinct ids stay distinct after the update |
| `ItemsApi.UpdateCanDuplicateIds` | apps/examples/python-fastapi/src/main.py:202-204 | The new item's id is never compared with the path id. In any store with distinct ids, an update whose new item carries another stored item's id leaves a duplicated id |
| `ItemsApi.ItemStore.DeleteItem` | apps/examples/python-fastapi/src/main.py:225-232 | Only the first item with the id is removed. The length drops by one and the rest keep their order. Without a match the result is `NotFound` (404) with the store unchanged |
| `ItemsApi.DeleteThenNotFound` | apps/examples/python-fastapi/src/main.py:225-229 | With distinct ids, no item with the id is left after removing the first one, and the remaining ids are still distinct |
| `ItemsApi.DeleteThenGet` | apps/examples/python-fastapi/src/main.py:151-229 | With distinct ids, a successful delete followed by a get of the same id is `NotFound`, and ids stay distinct |

## Left out

- The HTTPS key request (`requests.get` with its 10 s timeout, `raise_for_status`, `.json()['keys']`) is network I/O. It is the `CertsEndpoint` object, which logs each request and answers it with "fetched list or failure" from an arbitrary table. The failure kinds (status, timeout, malformed body) are not told apart.
- `jwt.get_unverified_header`, `RSAAlgorithm.from_jwk` and `jwt.decode` are library code. They are parameters, and nothing is claimed about RS256, base64url, or the checks of `exp`, `aud` and `iss` they perform.
- `time.time()` is wall-clock time and a float. The model takes the current time as an integer number of seconds.
- The text of the configuration error message is not modelled. The error carries the list of missing names that the message joins.
- Framework plumbing is not modelled: Flask `request`/`g`/`jsonify`, Starlette `JSONResponse`, the ASGI `receive`/`send` awaits, header-dict decoding and `async` scheduling. The wrappers are decision functions from the header value and the validation result to "401 with message", "run the handler with this identity" or "pass through".
- Concurrent callers sharing the cache are not modelled. The model is sequential.
- The script's `__main__` help printout is not modelled.
- Application setup is not modelled: the FastAPI app, CORS, logging, `health_check`, `hello`, the startup/shutdown handlers and `uvicorn.run`.
- Pydantic validation of request bodies is not modelled. `price` is a `real` carried as data, never computed on, and float rounding is not modelled.
- The 404/400 `detail` strings are represented by the error kind and the id. Integer-to-text formatting is not modelled, and neither is the 201/204 success status of create and delete.
- ItemsApi.ItemStore.ListItems: without a filter the original returns the `items_db` list object itself, so a caller could mutate the store through it. The model returns the list's value, so it does not capture that aliasing.
