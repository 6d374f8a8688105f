# Quay registry v2 endpoint core, modelled in Dafny

This project models the shared machinery of Quay's Docker/OCI registry v2 API
(`endpoints/v2/__init__.py`):

- **Repository permission resolver.** `_require_repo_permission`, and the three decorators built from it: `require_repo_read`, `require_repo_write` and `require_repo_admin`. It is a pure function `Permissions.Resolve` over the feature flags, the caller's authentication context, the result of the permission class's `can()` and the repository lookup. It returns `Allow`, `Unauthorized(repository?, scopes?, detail?)` or `Unsupported(detail)`.
- **Offset-cursor paginator.** `paginate`: the page-size clamp, the choice of page token (`next_page`, else `last`), the `start_id` taken from the decrypted token, and the callback that sets `Link: <...>; rel="next"` on the response.
- **Name-cursor paginator.** `oci_tag_paginate`, the OCI tag-listing variant: its clamp, the whitespace-stripped `last` tag name, and its callback.
- **Error handlers.** They turn a `V2RegistryException`, `ReadOnlyModeException`, `UpstreamRegistryError` or `QuotaExceededException` into a `{"errors": [...]}` response with the error's status. Authentication challenge headers are added only for a registry exception whose status is 401.

Modules:

- `Base`: `Option`, `Min`, `Max`.
- `V2Errors`: error values and the handled exceptions.
- `Http`: the response. It is a `Response` class with `body`, `status` and a multi-valued `headers` map, changed in place.
- `ErrorHandlers`, `Pagination`, `TagPagination` and `Permissions`: one module per component above.

Only `Jsonify`, `SetHeader` and `Extend` are members of the `Response` class. The two pagination callbacks are module-level methods that take a `Response` and declare `modifies response`headers`, so a callback changes nothing but that response's headers. Each callback's `ensures` ties the new headers to a pure function of the inputs (`NextPageLink`, `NextTagLink`). The error handlers and `FormatErrorResponse` are module-level methods that return a fresh `Response` whose state equals the pure `MappedResponse` of the exception. Lemmas state the properties of those functions.

Behaviour of the code worth knowing:

- **Restricted users with `allow_public`.** With `RESTRICTED_USERS` and `disallow_for_restricted_users` both set, `allow_public` gates every caller, not only restricted users acting on their own namespace (lines 189-198). The call is allowed exactly when the repository exists, is public and anonymous access is on. Grants, superuser status and the repository's kind are never consulted. Any other outcome is a bare `Unauthorized()`.
- **Global-readonly-superuser bypass.** The bypass at lines 245-253 can never be reached. Lines 229-230 and 239-243 already return or raise for every repository. `GlobalReadonlyNeverConsulted` proves that the decision does not depend on it.
- **Blank `last`.** A blank `last` tag name strips to `""` (line 151). It is passed on as the empty name, not as "absent".
- **Next-page `start_id`.** In `paginate` the `start_id` of the next token is the largest id over everything passed to the callback, including the over-fetched row (line 109). It is not taken over the returned page only.
- **Unparsable `n` in `oci_tag_paginate`.** Werkzeug's `args.get(..., type=int)` returns the default for an `n` it cannot convert, so the `except ValueError` branch (lines 144-146) never runs. An unparsable `n` gives `MAX` and `last` is kept.
- **Relative `Link` target.** `url_for` returns a path that starts with `/`, and `os.path.join` discards every component before an absolute one. So `os.path.join(get_app_url(), url_for(...))` (lines 111-113 and 158-160) yields the bare path, and `get_app_url()` never reaches the `Link` header.

## Model

| member | source | states |
|---|---|---|
| `Pagination.MaxResultsPerPage` | endpoints/v2/__init__.py:74-76 | the page bound is at least 100, at least the configured size, and is either 100 or that size; 100 when unconfigured |
| `Pagination.ClampLimit` | endpoints/v2/__init__.py:96 | the limit lies in `[1, MAX]`, equals a request already in range, is `MAX` above it and 1 below it |
| `Pagination.PageLimit` | endpoints/v2/__init__.py:91-96 | `paginate`'s limit is in `[1, MAX]`; absent `n` gives `MAX`, an `n` that does not parse gives 1, a parsed `n` is clamped |
| `Pagination.PageToken` | endpoints/v2/__init__.py:97 | the token is `next_page` when present, otherwise `last`; absent only when both are |
| `Pagination.StartId` | endpoints/v2/__init__.py:99-103 | a start id exists exactly when the token decrypted to a mapping with `start_id`, and is that stored value |
| `Pagination.PreparePage` | endpoints/v2/__init__.py:91-103 | the handler receives the clamped limit and the `start_id` of the decrypted chosen token, or none when decryption fails or the key is missing |
| `Pagination.AbsentTokenStartsAtBeginning` | endpoints/v2/__init__.py:97-103 | with neither cursor parameter and a decryptor that maps no token to nothing, there is no start id |
| `Pagination.MaxId` | endpoints/v2/__init__.py:109 | the id used for the next token is one of the results' ids and no result's id exceeds it |
| `Pagination.NextPageLink` | endpoints/v2/__init__.py:105-116 | a link is produced exactly when more than `limit` results were passed; it carries `n=limit` and a `next_page` token encrypting the largest id of all results passed |
| `Pagination.OverFetchedRowStartsNextPage` | endpoints/v2/__init__.py:106-109 | for increasing ids with one row over-fetched, the token's start id is the id of the last row passed, the first one not on the page |
| `Pagination.PaginationCallback` | endpoints/v2/__init__.py:105-116 | only the headers may change; with `len(results) <= limit` they are unchanged, otherwise exactly `Link` is replaced by the next-page link |
| `TagPagination.TagLimit` | endpoints/v2/__init__.py:141-148 | the tag limit is in `[1, MAX]`; absent or unparsable `n` gives `MAX`, a parsed `n` is clamped |
| `TagPagination.TrimStart` | endpoints/v2/__init__.py:151 | the result is a suffix of the input, everything removed is whitespace, and it does not start with whitespace |
| `TagPagination.TrimEnd` | endpoints/v2/__init__.py:151 | the result is a prefix of the input, everything removed is whitespace, and it does not end with whitespace |
| `TagPagination.StripSpec` | endpoints/v2/__init__.py:150-151 | the stripped name is the slice of `last` that starts after its leading whitespace, and everything dropped on either side is whitespace |
| `TagPagination.Strip` | endpoints/v2/__init__.py:151 | `str.strip()`, with `IsSpace` as Python's whitespace set: the stripped name is no longer than `last` and neither starts nor ends with whitespace |
| `TagPagination.BlankStripsToEmpty` | endpoints/v2/__init__.py:150-151 | a blank `last` strips to the empty name |
| `TagPagination.StripIdempotent` | endpoints/v2/__init__.py:151 | stripping a stripped name changes nothing |
| `TagPagination.PrepareTags` | endpoints/v2/__init__.py:141-151 | the handler receives the clamped limit and a last tag name that is present exactly when `last` was given, and is then its stripped form |
| `TagPagination.NextTagLink` | endpoints/v2/__init__.py:153-162 | a link is produced if and only if `has_more`; it carries the endpoint URL, `n=limit` and `last=` the final result's name |
| `TagPagination.TagPaginationCallback` | endpoints/v2/__init__.py:153-162 | only the headers may change; without `has_more` they are unchanged, otherwise exactly `Link` is replaced by the tag link |
| `Http.Extended` | endpoints/v2/__init__.py:47 | `headers.extend(pairs)` has as names exactly the old names and the names the pairs use |
| `Http.ExtendedAppends` | endpoints/v2/__init__.py:47 | `headers.extend(pairs)` appends to every header name exactly the values the pairs give for it, in order |
| `Http.ExtendedKeepsOthers` | endpoints/v2/__init__.py:47 | a header name none of the pairs uses keeps its values |
| `Http.Response.Jsonify` | endpoints/v2/__init__.py:43 | a jsonified response has the given body, status 200 and a JSON content type only |
| `Http.Response.SetHeader` | endpoints/v2/__init__.py:116 | `headers[name] = v` leaves `v` as the only value under `name` and nothing else changed |
| `Http.Response.Extend` | endpoints/v2/__init__.py:47 | the headers become the old headers extended by the pairs |
| `ErrorHandlers.MappedError` | endpoints/v2/__init__.py:41-64 | a registry exception is reported as itself; read-only mode as `ReadOnlyMode`, an upstream failure as `InvalidRequest` with `str(error)` as message, a quota failure as `QuotaExceeded`, each with its class's status and no repository, scopes or detail |
| `ErrorHandlers.MappedResponse` | endpoints/v2/__init__.py:41-71 | the handled response has the one-error envelope of the mapped error and its status; its headers are the JSON ones, plus the challenge header names only for a registry exception with status 401 |
| `ErrorHandlers.EnvelopeCarriesOneError` | endpoints/v2/__init__.py:43-45 | every handler's body is a one-element `errors` list whose error has the response's status |
| `ErrorHandlers.ChallengeOnlyOn401` | endpoints/v2/__init__.py:45-47 | the headers are the JSON ones plus, only for a registry exception with status 401, the challenges built from its repository and scopes |
| `ErrorHandlers.FormatErrorResponse` | endpoints/v2/__init__.py:67-71 | a fresh response with the one-error envelope, the error's status and no extra headers |
| `ErrorHandlers.HandleRegistryV2Exception` | endpoints/v2/__init__.py:41-49 | the fresh response equals the mapped response of the registry exception |
| `ErrorHandlers.HandleReadonly` | endpoints/v2/__init__.py:52-54 | the fresh response equals the mapped response of read-only mode |
| `ErrorHandlers.HandleProxyCacheError` | endpoints/v2/__init__.py:57-59 | the fresh response equals the mapped response of the upstream failure |
| `ErrorHandlers.HandleQuotaError` | endpoints/v2/__init__.py:62-64 | the fresh response equals the mapped response of the quota failure |
| `Permissions.Resolve` | endpoints/v2/__init__.py:174-261 | a granted `can()` allows when the restricted policy is off; `Unsupported` only under `allow_public` for a refused, existing, public non-image repository; a refusal naming a repository names `namespace/repo_name` with the decorator's scopes and no detail; a refusal naming none happens only under the restricted policy |
| `Permissions.PublicFallback` | endpoints/v2/__init__.py:226-255 | the `allow_public` fallback allows iff the repository exists, is public, is an image repository and anonymous access is on; it is `Unsupported` iff the repository is public and not an image one, with the message naming the kind; every other outcome is `Unauthorized(namespace/repo_name, scopes)` |
| `Permissions.DenialError` | endpoints/v2/__init__.py:193-255 | a refusal raises exactly one registry error: `Unauthorized` with the refusal's repository, scopes and detail, or `Unsupported` with its message, each with its class's status; an allowed call raises none |
| `Permissions.RefusalChallengesRepository` | endpoints/v2/__init__.py:226-255 | a refusal past the restricted block, handled with status 401, responds 401 and challenges for `namespace/repo_name` with the decorator's scopes |
| `Permissions.RestrictedPublicGate` | endpoints/v2/__init__.py:189-198 | with the restricted policy active and `allow_public`, any caller is allowed iff the repository exists, is public and anonymous access is on, otherwise a bare `Unauthorized()` |
| `Permissions.RestrictedOwnerDenied` | endpoints/v2/__init__.py:200-211 | with the policy active and no public fallback, a restricted non-superuser on their own namespace is refused with "Disallowed for restricted users." whatever `can()` says |
| `Permissions.AllowedExactly` | endpoints/v2/__init__.py:213-243 | past the restricted block, allowed iff `can()`, or the superuser override, or a public image repository with anonymous access on under `allow_public` |
| `Permissions.UnsupportedExactly` | endpoints/v2/__init__.py:227-237 | past the restricted block, `Unsupported` iff the public fallback finds a public repository whose kind is not "image", with the message naming that kind |
| `Permissions.DenialsNameRepository` | endpoints/v2/__init__.py:189-255 | every refusal past the restricted block is `Unauthorized(namespace/repo_name, decorator scopes)`; refusals without a repository occur only under the restricted policy |
| `Permissions.GlobalReadonlyNeverConsulted` | endpoints/v2/__init__.py:239-253 | the decision is the same whatever `SUPER_USERS`, `GLOBAL_READONLY_SUPER_USERS` and the caller's global-readonly status are |
| `Permissions.DecoratorScopes` | endpoints/v2/__init__.py:264-270 | read refuses with `["pull"]`; write and admin refuse with `["pull", "push"]` and decide independently of the repository lookup |

## Left out

- `v2_support_enabled` (lines 279-298) is left out. It parses the user agent, matches versions against a blacklist spec with a foreign library, and builds a plain response.
- `get_input_stream` (lines 273-276) is left out because it is WSGI stream I/O.
- Blueprint and error-handler registration, `wraps` plumbing, logging and Prometheus timing are left out. Each handler is a separate method, and `MappedResponse` stands for Flask's dispatch by exception type.
- URL building (`get_app_url`, `url_for`, `os.path.join`, `urlencode`) is left out. The `Link` value is structural: target, `n` and cursor. The target is a parameter.
- `encrypt_page_token` and `decrypt_page_token` are uninterpreted function parameters. The decrypted mapping is `map<string, int>`, not an arbitrary JSON object.
- `permission_class(...).can()`, `registry_model.lookup_repository` and the user directory's answers are input values, not calls. "Before `can()` is consulted" is stated as "the decision is the same for every value of `can`".
- `get_auth_headers` is an uninterpreted function of the repository and scopes.
- The status codes and `as_dict` of the error classes in endpoints/v2/errors.py are not part of this model. A registry error carries its own status. The three constructed errors take theirs from an `ErrorStatuses` record. The body holds the error values whose `as_dict()` it would serialise.
- Query-string parsing of `n` is taken as already done (a `QueryInt`: absent, an integer, or not an integer), since Python's `int()` and Werkzeug's conversion are library code.
- Werkzeug header names are case-insensitive, and the header list keeps its order across names. The model groups headers by exact name and keeps order only within a name.
- `jsonify` is modelled as setting status 200 and a JSON `Content-Type`; any other headers Flask computes when the response is sent are left out.
- TagPagination.NextTagLink: requires a non-empty result list when `has_more` holds, because `results[-1]` on an empty list raises in the source and callers never pass that.
- TagPagination.TagPaginationCallback: requires a non-empty result list when `has_more` holds, for the same reason as `NextTagLink`.
- Page tokens are produced and read by an encryptor and decryptor that are not part of this model, so no round trip between them is assumed or proved.
