# asfquart authentication core, modelled in Dafny

asfquart is a thin layer over the Quart web framework. Its core is a cookie-carried
session store, OAuth login through the ASF identity provider, role-based gatekeepers,
LDAP lookups of a user's project affiliations, and two request helpers. This project
models that core and proves what each part promises.

- `values.dfy` (module `Values`): Python values as the code sees them, as a `Value` datatype and `Record` dicts. It also holds `Option`/`Result`, `str(int)` and `in` on strings.
- `base.dfy` (module `Base`): `ASFQuartException` and its subclass `AuthenticationFailed`, the responses the endpoints give, and the application-wide exception handler.
- `session.dfy` (module `Session`): `read`, `write` and `clear` on a `SessionStore` class. The class holds the framework's session dict and the app id. Each method is proved against a specification function, and the lemmas cover the sliding idle expiry, the write/read round trip and idempotence.
- `auth.dfy` (module `Auth`): `check_role`, `auth_required`, `mfa_required` and `role_required` as decisions on the session that `read` returned.
- `generics.dfy` (module `Generics`): the `/auth` OAuth endpoint as an `OAuthEndpoint` class. The class holds the `pending_states` map of its closure and the session store. Also here: the HTTPS rewrite of the callback host, and the `enforce_login` error handler.
- `ldap.dfy` (module `Ldap`): the DN template and the two DN patterns. Also the loops that split the search result into `member`/`owner` project lists, and `get_affiliations` with its one-hour per-user cache.
- `utils.dfy` (module `Utils`): `formdata` (merge order and the 413 size rule) and the `filename` URL converter (its pattern and `os.path.splitext`).

Time is an integer parameter `now`. The random OAuth state, `urllib.parse.quote` and
`urllib.parse.urljoin` are parameters. The result of the code exchange with the
identity provider is a parameter, and so are the answers of the LDAP server.

## Model

| member | source | states |
|---|---|---|
| Session.SessionStore.Read | src/asfquart/session.py:8-27 | `read` gives the result and the new session dict that `ReadOutcome` specifies |
| Session.SessionStore.Write | src/asfquart/session.py:30-35 | `write` replaces the app's entry with a copy of the data stamped `uts = now` |
| Session.SessionStore.Clear | src/asfquart/session.py:38-40 | `clear` pops the app's entry if it is there |
| Session.ReadAbsent | src/asfquart/session.py:13-18 | with no entry, or an entry that is not a dict, `read` returns nothing and changes nothing |
| Session.ReadDecision | src/asfquart/session.py:14-27 | a dict entry is deleted and nothing is returned exactly when its stamp is strictly before `now - expiry`; otherwise it comes back with `uts = now`, with every other field and key kept, and it is stored back |
| Session.ReadAtDeadline | src/asfquart/session.py:16-21 | a stamp exactly at the deadline is still valid |
| Session.ReadUnstamped | src/asfquart/session.py:19-21 | a record without `uts` expires exactly when `now > expiry` |
| Session.ReadBoolStamp | src/asfquart/session.py:19-21 | a boolean stamp counts as 1 for `True` and 0 for `False`, so it never makes `read` fail |
| Session.ReadBadStamp | src/asfquart/session.py:19-21 | a stamp that is not a number makes `read` fail and leaves the dict as it was |
| Session.WriteStores | src/asfquart/session.py:30-35 | after `write` the entry holds the data's keys plus `uts`, each with the data's value, and `uts = now` |
| Session.WriteThenRead | src/asfquart/session.py:8-35 | round trip: data written at `t` and read at `t2` within the expiry comes back as written, with `uts = t2` |
| Session.WriteThenReadLate | src/asfquart/session.py:8-35 | data written at `t` and read after more than the expiry is gone, as if cleared |
| Session.ReadIdempotent | src/asfquart/session.py:8-27 | a second `read` at the same instant gives the same result and dict as the first |
| Session.ReadThenReadLater | src/asfquart/session.py:8-27 | a later second `read` within the expiry window returns the first read's record with only `uts` moved to the new time; past the window it deletes the entry and returns None; no session or a bad stamp stays as it was |
| Session.ClearIdempotent | src/asfquart/session.py:38-40 | `clear` removes the entry; clearing twice, or clearing with no entry, changes nothing more |
| Session.OtherAppsUntouched | src/asfquart/session.py:8-40 | `read`, `write` and `clear` never change another application's entry |
| Auth.CommitterIffNonEmpty | src/asfquart/auth.py:70-71 | `committer` holds exactly for a non-empty session |
| Auth.FlagRoles | src/asfquart/auth.py:72-77 | `member`, `chair` and `root` hold exactly when their flag is the boolean `True` |
| Auth.UncheckedRolesNeverHold | src/asfquart/auth.py:67-78 | `director`, `secretary`, `infrastructure` and `security` are never granted |
| Auth.AuthRequiredDecision | src/asfquart/auth.py:29-47 | `auth_required` admits exactly a non-empty dict and otherwise raises the 403 "must authenticate" failure |
| Auth.MfaRequiredDecision | src/asfquart/auth.py:50-64 | `mfa_required` admits exactly what `auth_required` admits with `mfa` set to `True`; an unauthenticated request gets the `auth_required` failure first |
| Auth.AllHoldMeansEvery | src/asfquart/auth.py:108 | `all(check_role ...)` holds iff every listed role holds |
| Auth.AnyHoldsMeansSome | src/asfquart/auth.py:110 | `any(check_role ...)` holds iff some listed role holds |
| Auth.RoleRequiredDecision | src/asfquart/auth.py:81-114 | `role_required` admits iff the session is non-empty, every `all_of` role holds, and some `any_of` role holds when `any_of` is non-empty; the authentication failure comes first, and both role failures are the 403 "organizational role" failure |
| Auth.DenialResponses | src/asfquart/base.py:85-91 | the app-wide handler answers every gatekeeper denial with 403 and the fixed text of the check that failed: "must authenticate" without a session, else the MFA or the role text; this holds while `enforce_login` is not installed, otherwise its own handler answers (`Generics.EnforceLoginDecision`) |
| Auth.SingleRoleIsOneElementList | src/asfquart/auth.py:101-105 | a single enum role behaves exactly as the one-element list holding it |
| Auth.EmptyRoleListsAreNoConstraint | src/asfquart/auth.py:108-111 | `None` and the empty list impose no constraint; with neither list, `role_required` is `auth_required` |
| Auth.DefaultRoleRequiredIsAuthRequired | src/asfquart/auth.py:81-82 | `role_required()` with its defaults admits exactly what `auth_required` admits |
| Generics.OAuthEndpoint.constructor | src/asfquart/generics.py:16-31 | the endpoint starts with no pending states |
| Generics.OAuthEndpoint.Handle | src/asfquart/generics.py:35-94 | one request gives the response, pending states and session dict that `Endpoint` specifies |
| Generics.OAuthEndpoint.StartLogin | src/asfquart/generics.py:39-49 | the login branch records the state and redirects, as `LoginStep` specifies |
| Generics.OAuthEndpoint.LogOut | src/asfquart/generics.py:52-59 | the logout branch clears the session, as `LogoutStep` specifies |
| Generics.OAuthEndpoint.CompleteLogin | src/asfquart/generics.py:61-86 | the callback branch consumes the state and writes the session, as `CallbackStep` specifies |
| Generics.OAuthEndpoint.ShowSession | src/asfquart/generics.py:87-94 | the bare branch reads the session, as `ShowStep` specifies |
| Generics.EndpointBranch | src/asfquart/generics.py:35-94 | each request is answered by the branch the dispatch selects |
| Generics.EndpointCallback | src/asfquart/generics.py:60-63 | a request with both `code` and `state` (and no login or logout) is answered by the callback branch |
| Generics.DispatchPriority | src/asfquart/generics.py:37-63 | the branch order is login (a truthy `login` argument or the bare query `login`), then logout in the same way, then callback when both `code` and `state` are truthy, else the session view |
| Generics.EnforceHttpsLeavesNoHttp | src/asfquart/generics.py:43 | after the rewrite no `http://` is left anywhere in the callback host |
| Generics.EnforceHttpsKeepsHttpsHost | src/asfquart/generics.py:43 | a host without `http://` is left as it is |
| Generics.EnforceHttpsOnPlainHost | src/asfquart/generics.py:43 | `http://host` becomes `https://host` |
| Generics.LoginInitiates | src/asfquart/generics.py:39-49 | login maps the new state to `(now, login value)` and keeps every other pending state and the session; it redirects to the provider with the callback on the HTTPS host |
| Generics.ConsumeRemoves | src/asfquart/generics.py:64-73 | a callback's state is rejected iff it is unknown or created before `now - timeout`; it is popped either way |
| Generics.ConsumeSingleUse | src/asfquart/generics.py:64-73 | the second use of one state is always rejected |
| Generics.InitiateThenConsume | src/asfquart/generics.py:42-73 | a state initiated at `t` and presented within the timeout is accepted with the login value stored for it |
| Generics.CallbackStepPops | src/asfquart/generics.py:64-73 | the callback branch always pops the state, and answers 403 for an unknown state |
| Generics.CallbackRejected | src/asfquart/generics.py:64-69 | an unknown or stale state gets the 403 expiry message; the state is purged and the session is left alone |
| Generics.CallbackSingleUse | src/asfquart/generics.py:63-73 | replaying a callback request gets 403 at any later time, whatever the exchange would give |
| Generics.CallbackAccepted | src/asfquart/generics.py:70-86 | an accepted callback writes the provider's data as the session and redirects to the stored login value unchanged; without one it welcomes the data's `uid`, or fails with 500 (the session already written) when the data has no `uid` |
| Generics.CallbackExchangeFailed | src/asfquart/generics.py:70-79 | a failed code exchange still consumes the state and writes no session |
| Generics.LoginThenCallback | src/asfquart/generics.py:39-86 | end to end: `?login=v`, then the callback with that state within the timeout, gives a session with the provider's data and a redirect to `v` |
| Generics.LogoutClears | src/asfquart/generics.py:52-59 | logout removes this app's session and keeps the pending states; it redirects to a truthy logout value and otherwise says goodbye with 200 |
| Generics.BareRequestWithoutSession | src/asfquart/generics.py:87-94 | a bare request with no stored session answers 404 and changes nothing |
| Generics.BareRequestWithSession | src/asfquart/generics.py:87-94 | a bare request with a live session shows the refreshed record |
| Generics.ShowAsWrittenAlwaysFails | src/asfquart/generics.py:87-94 | as written, a bare request always fails with 500 after the read has run; the corrected branch shows a live session and answers 404 without one |
| Generics.EnforceLoginDecision | src/asfquart/generics.py:97-111 | the handler redirects to `redirect_uri?login=<full path>` exactly when there is neither an Authorization header nor a session; otherwise it answers with the error's code and message |
| Generics.DefaultEnforceLoginRedirect | src/asfquart/generics.py:97-109 | with the default `redirect_uri`, a request with no session and no Authorization header is sent to `/auth?login=<full path>` |
| Generics.DefaultTimeoutMessage | src/asfquart/generics.py:64-69 | with the default 900-second timeout, a rejected callback is told the workflow must finish within 900 seconds |
| Generics.EnforceLoginAsWrittenNeverRedirects | src/asfquart/generics.py:105-111 | as written the handler never redirects; a request with no session and no Authorization header gets 500 where the corrected handler redirects |
| Ldap.PrefixedMatchShape | src/asfquart/ldap.py:10-11 | `UID_RE`/`GROUP_RE` fail exactly on an empty DN or one that starts with a comma; otherwise they give a non-empty comma-free run, right after the prefix or from the start, that ends at a comma or at the end |
| Ldap.GroupNameOfCn | src/asfquart/ldap.py:11 | `cn=<name>` followed by a comma or by nothing gives `<name>` |
| Ldap.UidOfUserDn | src/asfquart/ldap.py:8-10 | the user DN template and `UID_RE` are inverse for a non-empty, comma-free user name |
| Ldap.PartitionGroups | src/asfquart/ldap.py:45-57 | the loops build the `member` and `owner` lists that `Partition` specifies |
| Ldap.FileProject | src/asfquart/ldap.py:55-57 | the inner loop appends the project name to each attribute list that lists the user |
| Ldap.IgnoredEntries | src/asfquart/ldap.py:51-53 | a result without a `dn`, without both attributes, or whose `dn` does not match `GROUP_RE` adds nothing |
| Ldap.ProjectsAppend | src/asfquart/ldap.py:50-57 | the lists follow the search-result order: the lists of a concatenation are the concatenated lists |
| Ldap.ProjectsMembership | src/asfquart/ldap.py:50-57 | a name is in a list iff some considered result with that group name lists the user's DN under that attribute |
| Ldap.ProjectsLength | src/asfquart/ldap.py:50-57 | each list has at most one name per search result |
| Ldap.ErrorResponses | src/asfquart/ldap.py:61-67 | the handler answers a failed lookup with 403 and the credentials text exactly for bad credentials, and with 500 and the "try again later" text otherwise |
| Ldap.LDAPClient.constructor | src/asfquart/ldap.py:29-32 | the client's DN is the template filled with the user name |
| Ldap.LDAPClient.GetAffiliations | src/asfquart/ldap.py:34-67 | `get_affiliations` gives the result and the cache that `Lookup` specifies |
| Ldap.CacheHitBindsOnly | src/asfquart/ldap.py:39-43 | on a cache hit only the bind matters; the search is not used, the cache is unchanged and the cached lists are returned |
| Ldap.CacheExpiresAtTtl | src/asfquart/ldap.py:41 | an entry stamped exactly one hour ago is no longer used |
| Ldap.CacheMissRefreshes | src/asfquart/ldap.py:44-59 | on a miss with a non-empty result, the user's entry is replaced by `(now, lists)` with exactly the keys `member` and `owner`, and those lists are returned |
| Ldap.OtherUsersUntouched | src/asfquart/ldap.py:58 | looking one user up never changes another user's cache entry |
| Ldap.FailureKeepsCache | src/asfquart/ldap.py:40-67 | a failed lookup leaves the cache as it was |
| Ldap.ErrorMapping | src/asfquart/ldap.py:48-67 | an empty result on a miss is the 500 "try again later" failure; bad credentials are the 403 failure; no other failure reaches the client |
| Utils.FormData | src/asfquart/utils.py:18-47 | `formdata` gives what `FormOutcome` specifies |
| Utils.MergePrecedence | src/asfquart/utils.py:20-47 | the dict has the keys of the query, the form and the JSON body; each key takes its JSON value, else its form value, else its query value |
| Utils.FormOutcomeDecision | src/asfquart/utils.py:24-41 | the request is refused exactly when its content type is a form type and its length is missing or strictly above the limit (102400 when none is configured); a refusal with a length is the 413 response |
| Utils.LimitBoundary | src/asfquart/utils.py:35-41 | a form body exactly at the limit is accepted; one byte more gets 413 |
| Utils.MultipartWithBoundary | src/asfquart/utils.py:24-31 | a multipart content type with a boundary parameter counts as form data |
| Utils.NoContentTypeNoLimit | src/asfquart/utils.py:24 | without a content type the size is never checked |
| Utils.TooLargeMessageShape | src/asfquart/utils.py:40 | the 413 message holds the request's length and then the limit, each in its place in the fixed text |
| Utils.FilenameMatchesIff | src/asfquart/utils.py:54 | the pattern accepts exactly the strings without `/` that have no dot, or one dot followed by one or more ASCII letters or digits up to the end |
| Utils.SplitExt | src/asfquart/utils.py:57-58 | `to_python` returns the POSIX `splitext` of the name, and root plus extension is the name |
| Utils.SplitExtConcat | src/asfquart/utils.py:57-58 | the split never loses or adds a character |
| Utils.AcceptedSplit | src/asfquart/utils.py:54-58 | for an accepted name: no dot gives no extension; text before the dot splits at the dot, with an extension of the dot plus at least one letter or digit; a leading-dot name like `.txt` has no extension |

## Findings

| source | as written | input that shows it | evidently intended | confidence | as-written member | corrected member |
|---|---|---|---|---|---|---|
| src/asfquart/generics.py:88-89 | the bare branch awaits the plain dict or `None` that `session.read()` returns, which raises TypeError; `session.ClientSession` does not exist either | `GET /auth` with no query, with or without a session | show the current session, or answer 404 when there is none | high; not executed | Generics.ShowStepAsWritten | Generics.ShowStep |
| src/asfquart/generics.py:108 | with no Authorization header, the handler awaits what `session.read()` returns, which raises TypeError inside the error handler | a restricted page requested with no session and no Authorization header | redirect to `redirect_uri?login=<full path>` | high; not executed | Generics.EnforceLoginAsWritten | Generics.EnforceLogin |

## Left out

- What an admitted request returns: the `auth_required`, `mfa_required` and `role_required` wrappers await the handler but do not return its result, so Quart gets `None`; `Auth.Decision.Admit` only says that the request passed the check.
- Routes with URL variables: `Auth.Decision.Admit` means the handler runs only for routes without URL variables under `mfa_required` and `role_required`. Their inner wrappers take no view arguments (src/asfquart/auth.py:55, 100) and call the handler with none (auth.py:62, 111), so on a route with URL variables an admitted request ends in a 500 (TypeError); `auth_required` alone forwards the arguments.
- Timestamps are Python floats from `time.time()`; the model uses integers. The comparisons are the same, but sub-second precision is not modelled.
- `read` returns the stored dict itself, so a caller that changes it changes the session; records here are values, so this aliasing is not modelled.
- Quart persists the session cookie only when it sees a change; whether the in-place `uts` refresh in `read` reaches the browser depends on the framework's configuration, which is not part of this model.
- Session.SessionStore.Read: `read` is treated as a plain call wherever the code awaits it (the two rows under Findings show what the `await` does as written).
- The `/auth` endpoint does not validate login or logout redirect values; the model redirects to them unchanged, as the code does.
- The random state (`secrets.token_hex(16)`), `urllib.parse.quote` and `urllib.parse.urljoin` are inputs of the login branch, because they are library calls whose results the endpoint only passes on.
- The aiohttp code exchange with the identity provider is an input (`Exchange`). A non-200 answer, a timeout and invalid JSON are all `ExchangeFailed`, a 500.
- Auth: a role argument given as a bare int, rather than an enum value or a list, is not modelled.
- The `args` of a request are one value per key (`to_dict()` keeps the first); repeated query keys are not modelled.
- Utils.FormData: the JSON body is assumed to be an object. A JSON list or scalar makes `dict.update` fail and is not modelled.
- Utils.FormData: the body is drained before the 413 response and the form is awaited before the size check; both are I/O and are not modelled.
- The framework's own default for `MAX_CONTENT_LENGTH` is not modelled; an absent key gives 102400, as `formdata` reads it.
- Utils.FilenameMatchesIff: the pattern is matched against the whole name. The way the router embeds it in a URL rule, and Python's `$` also matching before a final newline, are not modelled.
- The LDAP bind and search are done by an LDAP library over the network; the model takes their answers as a `Directory` value, and `LDAP_SUPPORTED` (whether that library is installed) is not modelled.
- Ldap.LDAPClient.GetAffiliations: `time.time()` is read twice in the source (the freshness test and the new stamp); the model uses one `now` for both.
- The password only reaches the LDAP library, so it is not a field of the modelled client.
- Concurrency: the pending-state map and the LDAP cache are shared across requests without locking. The model handles one request at a time.
- `use_template`/`render` (an external template engine), `CancellableTask` (asyncio cancellation), the secret-token file handling in `base.py`, and the logging calls are not part of this model.
- `src/asfquart/__init__.py`, `config.py`, `status.py` and the example applications are not part of this model.
