# django-tos: terms-of-service gate, modelled in Dafny

django-tos makes logged-in users agree to the active terms of service before
they can browse a site. Its core pieces are:

- **Agreement gate.** A request middleware decides, on every GET, whether to
  let the request through or redirect to a confirmation page.
- **Versioned cache.** The gate's answers come from a Django cache whose
  derived keys (`django:tos:skip_tos_check:<id>` and `django:tos:agreed:<id>`)
  are read and written at a *version*. That version is the integer counter
  `django:tos:key_version`, stored at the cache's default version.
  Publishing new terms bumps the counter, which abandons every cached answer
  at once.
- **Staff bypass.** A bulk index and a per-user sync maintain the
  skip-the-check entries for staff and superusers.
- **Single-active rule.** Saving a terms-of-service record deactivates every
  other record.
- **Bootstrap.** After database synchronisation, a blank active record is
  created if none is active.
- **Login views.** They sanitise the post-login redirect target, and `login`
  completes the login only for a user who has agreed to the latest terms.

Modules, one per source file, plus three shared modules (`Wrappers`, `Keys`, `VersionedCache`):

| file | module | models |
|---|---|---|
| `wrappers.dfy` | `Wrappers` | `Option`, `Result` |
| `keys.dfy` | `Keys` | the literal key strings and the decimal rendering of user ids |
| `versioned_cache.dfy` | `VersionedCache` | the cache as a class over `map<(version, key), value>`, with `get`, `set`, `add`, `incr`, `set_many` and `delete` |
| `signal_handlers.dfy` | `SignalHandlers` | the raw-guarded counter bump |
| `utils.dfy` | `Utils` | counter initialisation, the unguarded bump, the staff index, the staff sync |
| `models.dfy` | `Models` | records, `__unicode__`, `save`, and the table as a class |
| `management.dfy` | `Management` | the default-terms bootstrap |
| `middleware.dfy` | `Middleware` | `process_request` |
| `views.dfy` | `Views` | the redirect sanitiser, `login` and `login_old` |

Each state-changing operation appears twice:

- an imperative `method` on the `Cache`, `TosTable` or `Session` object, with
  early returns in the source's order;
- a specification function of the old state (`Bumped`, `Initialized`,
  `StaffIndexed`, `SyncedAsWritten`, `Saved`, `Gate` and so on).

Each method's `ensures` ties the new state to its function, and the
properties are proved about the functions.

Modelling choices:

- **Cache versions.** A cache call with no version, or with `version=None`,
  uses the default version 1. A `Value` is an integer or a boolean. Truthiness
  follows Python, and `incr` counts `True` as 1.
- **Counter invariant.** The cache's `Valid()` invariant says the counter slot
  holds an integer whenever it exists. Every writer in the core writes
  integers there.
- **User ids.** In the database, user ids are `nat`. The session carries the
  id as text.
  - The staff index and the sync embed the decimal rendering `Decimal(id)`
    in their keys.
  - The gate embeds the session text.
  - The agreement query compares the session text with `Decimal(user)`.
- **Generation invariant.** The ghost predicate `NoDerivedAboveCurrent` says
  no derived entry lies above the current version. Every writer keeps it,
  including the first bump from an absent counter. So every bump of an
  *existing* counter hides all earlier answers. The first bump from an
  absent counter lands on the default version 1, where derived keys were
  already being read and written, so those entries stay visible.

## Model

| member | source | states |
|---|---|---|
| `Keys.KeyFamiliesDisjoint` | tos/middleware.py:45-53 | skip keys, agreed keys and the counter key never collide, whatever the user ids |
| `Keys.Decimal` | tos/utils.py:50 | `f'{id}'` for a user id: non-empty and all decimal digits, with at least two digits from 10 on (also at tos/utils.py:65 and tos/utils.py:68-69) |
| `Keys.DecimalInjective` | tos/utils.py:50 | distinct user ids render to distinct decimal text, so their staff-skip keys differ |
| `Keys.SkipKeysOfIdsInjective` | tos/utils.py:50 | two users' `skip_tos_check:<id>` keys coincide only for the same id |
| `Keys.AgreedKeyInjective` | tos/middleware.py:53 | two session user ids share an `agreed:<id>` key only when they are equal |
| `VersionedCache.SetManyLookup` | tos/utils.py:49-53 | a bulk `set_many` yields the mapped value at exactly the mapped keys of the given version and changes nothing else |
| `VersionedCache.Cache.Get` | tos/middleware.py:45-53 | a lookup finds a value exactly when the slot at the resolved version is present, and returns that value |
| `VersionedCache.Cache.Add` | tos/utils.py:33 | `add` reports and performs a store only into an empty slot |
| `VersionedCache.Cache.Incr` | tos/utils.py:37 | `incr` fails with a missing key, and otherwise stores and returns the old number plus one |
| `VersionedCache.Cache.Set` | tos/middleware.py:63 | `set` stores the value at the resolved version, overwriting the slot, and changes nothing else (also used at tos/utils.py:65) |
| `VersionedCache.Cache.SetMany` | tos/utils.py:49-53 | `set_many` stores every mapped value at the resolved version and changes nothing else |
| `VersionedCache.Cache.Delete` | tos/utils.py:69 | `delete` removes the slot at the resolved version and nothing else |
| `SignalHandlers.Bumped` | tos/signal_handlers.py:15-19 | after `add(…, 0)` and `incr`, the counter is 1 if it was absent and v+1 if it was v, and no other key changes |
| `SignalHandlers.OnSave` | tos/signal_handlers.py:9-19 | the handler's effect: a raw save leaves the cache unchanged, any other moves the counter to 1 from absent or v+1 from v, and no other key changes |
| `SignalHandlers.InvalidateCachedAgreements` | tos/signal_handlers.py:9-19 | a raw save leaves the cache unchanged, and any other save performs the bump |
| `SignalHandlers.HandleSavesCounter` | tos/signal_handlers.py:9-19 | over any run of saves, the counter grows by exactly the number of non-raw saves, and stays absent only while there are none |
| `SignalHandlers.BumpsFromEmpty` | tos/signal_handlers.py:15-19 | N non-raw saves starting from an empty cache leave the counter at N |
| `SignalHandlers.HandleSavesMonotone` | tos/signal_handlers.py:15-19 | the counter never decreases |
| `SignalHandlers.HandleSavesOnlyCounter` | tos/signal_handlers.py:15-19 | a run of saves changes no key but the counter |
| `SignalHandlers.BumpHidesDerivedEntries` | tos/utils.py:35-37 | when a counter exists and the generation invariant holds, a bump raises the current version by one, keeps the invariant, and makes every derived lookup miss |
| `SignalHandlers.BumpKeepsGeneration` | tos/signal_handlers.py:15-19 | every bump keeps the generation invariant, whether or not the counter existed |
| `SignalHandlers.FirstBumpKeepsDefaultVersion` | tos/signal_handlers.py:15-19 | the first bump from an absent counter lands on the default version, so entries stored before it stay visible |
| `Utils.Initialized` | tos/utils.py:23-27 | an absent or falsy counter becomes 1, a truthy counter leaves the cache unchanged, and only the counter can change |
| `Utils.InitializedKeepsGeneration` | tos/utils.py:23-27 | initialisation keeps the generation invariant |
| `Utils.InitializeIdempotent` | tos/tests/test_cache.py:68-79 | initialising twice gives the same cache as initialising once |
| `Utils.InitializeCacheVersion` | tos/utils.py:23-27 | the method's new cache is `Initialized` of the old one |
| `Utils.InvalidateCachedAgreements` | tos/utils.py:30-37 | the unguarded bump's new cache is `Bumped` of the old one |
| `Utils.KeyVersion` | tos/utils.py:45 | passing the counter read as `version=` reads at the counter's value, or at the default version when the counter is absent (also at tos/utils.py:61 and tos/middleware.py:45) |
| `Utils.StaffSkipMapping` | tos/utils.py:49-52 | the comprehension maps every staff or superuser's skip key to `True`, and holds no other key |
| `Utils.StaffMappingHasId` | tos/utils.py:49-53 | the `set_many` mapping holds a user's skip key exactly when some staff or superuser has that id |
| `Utils.StaffIndexed` | tos/utils.py:40-53 | raw changes nothing; otherwise nothing is removed, the counter is kept, keys at other versions and non-skip keys are kept, and every new key is a skip key at the current version |
| `Utils.StaffIndexedExactly` | tos/tests/test_cache.py:81-91 | after the index, an id's skip entry at the current version is `True` exactly for staff and superusers, and every other id's entry is unchanged |
| `Utils.NoSkipKeyIsCounter` | tos/utils.py:49-53 | the staff mapping never touches the counter and holds only skip keys |
| `Utils.AddStaffUsersToTosCache` | tos/utils.py:40-53 | the method's new cache is `StaffIndexed` of the old one |
| `Utils.SyncedAsWritten` | tos/utils.py:56-69 | raw does nothing; staff or superuser gets `True` at `key_version` and nothing else changes; a non-staff user loses the entry at `key_version` only when the default-version lookup is truthy |
| `Utils.SetStaffInCacheForTos` | tos/utils.py:56-69 | the method's new cache is `SyncedAsWritten` of the old one |
| `Utils.Synced` | tos/utils.py:56-69 | corrected sync: afterwards the user's skip entry at the current version is truthy exactly for staff or superusers, and only that one slot changes |
| `Utils.SetStaffInCacheForTosCorrected` | tos/utils.py:56-69 | the method's new cache is `Synced` of the old one |
| `Utils.DemotedUserKeepsSkipEntry` | tos/utils.py:68-69 | at `key_version` 2, syncing a demoted user leaves their truthy skip entry in place |
| `Utils.SyncsAgreeAtDefaultVersion` | tos/tests/test_cache.py:93-111 | while `key_version` is the default version, the as-written sync and the corrected sync agree |
| `Utils.StaffWritesKeepGeneration` | tos/utils.py:49-69 | the staff index and both syncs keep the generation invariant |
| `Models.Unicode` | tos/models.py:25-29 | the text is exactly `<created>: active` for an active record and `<created>: inactive` otherwise: prefix, suffix and length are all fixed |
| `Models.DeactivateOthers` | tos/models.py:34 | every record with a different id becomes inactive, only the `active` field changes, and the saved id's rows are kept |
| `Models.Upsert` | tos/models.py:36 | persisting by primary key replaces the rows with the record's id, or appends it when no row has that id, and leaves every other row alone |
| `Models.Saved` | tos/models.py:31-36 | the saved record is stored as given (replacing its row or appended), every other record changes only in `active`, which becomes false, and ids stay unique |
| `Models.ActiveRows` | tos/management/__init__.py:8 | `filter(active=True)`: each active record appears as often as in the table and no inactive record appears, so its length is the number of active rows |
| `Models.SavedActiveIsOnlyActive` | tos/tests/test_models.py:43-50 | after saving an active record, it is the only active record |
| `Models.TosTable.Save` | tos/models.py:31-36 | the table's new rows are `Saved` of the old rows |
| `Models.TosTable.Create` | tos/management/__init__.py:10-13 | `objects.create` gives the record a fresh id and stores it through `save` |
| `Management.CreateDefaultTosOnSync` | tos/management/__init__.py:4-13 | one active record changes nothing; none creates one blank active record through `save`; several raise `MultipleObjectsReturned` and change nothing; an active record exists afterwards |
| `Management.BootstrapCreatesSoleActive` | tos/management/__init__.py:9-13 | with no active record, the new blank record is appended and becomes the only active record |
| `Management.SavedFreshOntoInactive` | tos/models.py:34-36 | saving a record with a fresh id over inactive rows only appends it |
| `Middleware.Gate` | tos/middleware.py:20-79 | the four early exits pass untouched; a missing backend is a `KeyError`; a truthy skip entry passes with no further lookup; a cached verdict alone decides; a miss queries the table and writes the answer back; past the skip entry the result is a pass exactly when the verdict is true and a redirect otherwise; all derived keys are read at `key_version`; a redirect goes to `<tos_check_url>?next=<path>`, carries never-cache headers, and alone writes `tos_user` and `tos_backend` |
| `Middleware.ProcessRequest` | tos/middleware.py:20-79 | the method's result, new cache and new session are `Gate`'s |
| `Middleware.AgreedToActiveTerms` | tos/middleware.py:58-60 | the table fallback is true exactly when some agreement by this user is to an active record; so no agreements, or no active record, make it false |
| `Middleware.GateWritesOnlyOwnVerdict` | tos/middleware.py:53-63 | the gate leaves every other user's verdict and every skip entry unchanged at every version |
| `Middleware.GateKeepsGeneration` | tos/middleware.py:63 | the gate's write-back keeps the generation invariant |
| `Middleware.BumpForcesTableLookup` | tos/middleware.py:45-63 | after a bump of an existing counter, with no derived entry above the current version, a checked request queries the agreement table and the table alone decides |
| `Middleware.NewTermsForceReacceptance` | tos/middleware.py:45-77 | when the counter exists and no derived entry lies above the current version, once an active record the user never agreed to is saved and the counter bumped (tos/signal_handlers.py:15-19), the gate misses every cached verdict and redirects the user |
| `Middleware.StaffIndexBypassesCheck` | tos/tests/test_middleware.py:175-185 | an indexed staff user passes with two lookups and no table query |
| `Middleware.DemotionRemovesBypass` | tos/middleware.py:49-53 | after the corrected sync of a demoted user, the gate goes on to the agreement lookup |
| `Middleware.DemotedStaffKeepsBypass` | tos/utils.py:68-69 | after the as-written sync at `key_version` 2, a demoted user with no agreement still passes the gate |
| `Views.MatchesPrefixPatternMeaning` | tos/views.py:90-95 | the anchored scan for "non-`?` characters then `//`" accepts exactly the targets with `//` before the first `?` |
| `Views.MatchesPrefixPattern` | tos/views.py:94 | the regular-expression scan; any match contains a `//`, so the `'//' in redirect_to` conjunct in front of it is implied |
| `Views.CleanRedirect` | tos/views.py:86-95 | the result is the target or `LOGIN_REDIRECT_URL`: the default for an empty target, a target with a space, or one with `//` before the first `?`, and the target otherwise |
| `Views.CleanRedirectIsSafe` | tos/views.py:28-37 | the result is either the default or a non-empty target with no space and no `//` before the first `?` |
| `Views.AbsoluteUrlRejected` | tos/views.py:32-37 | `scheme://…` with no `?` in the scheme is replaced by the default |
| `Views.ProtocolRelativeRejected` | tos/views.py:90-95 | `//…` is replaced by the default |
| `Views.CleanRedirectIdempotent` | tos/views.py:86-95 | sanitising a sanitised target changes nothing, for every target and every default |
| `Views.ScanStopsAtQuery` | tos/views.py:94 | the scan fails when a `?` comes before any `//` |
| `Views.QueryUrlKept` | tos/views.py:90-93 | `/view/?param=http://example.com` is kept |
| `Views.Login` | tos/views.py:75-134 | a valid POST logs in and redirects to exactly `CleanRedirect` of the target when the user agreed; it shows the terms page with exactly that target when they did not; any other request shows the login page with the target as given |
| `Views.LoginOld` | tos/views.py:17-62 | a valid POST logs in and redirects to exactly `CleanRedirect` of the target; any other request shows the login page |
| `Views.AgreedLoginIsOldLogin` | tos/views.py:98-106 | for a user who agreed, `login` is `login_old` |
| `Views.LoginBranchesShareTarget` | tos/views.py:106-114 | the redirect and the terms page carry the same sanitised target |

## Left out

- **Concurrency.** Cache calls are sequential map updates, and no atomicity
  of `add`/`incr` across processes is claimed. Cache timeouts, eviction,
  `cache.clear` and key-prefix formatting beyond the literal strings are not
  modelled.
- **Framework wiring.** The signal connection (tos/apps.py), the command
  wrapper and the admin are not part of this model. The user list given to
  the staff index stands for the `is_staff | is_superuser` query. The
  `created` timestamp is text supplied by the caller (there is no clock).
- **Non-canonical session ids.** The session's user id is used as stored.
  A session id such as `"05"` matches no decimal rendering, so it never hits
  a staff entry. The model follows that, but Django's coercion of such text
  in `user__id=` is not modelled.
- **Views plumbing.** Form validation, `auth_login`, test cookies, the `Site`
  lookup, template rendering and `never_cache` headers are not modelled.
  "Form valid" and "user agreed to the latest terms" are inputs, and the
  view's target is the raw `REQUEST` field, `""` when absent.
  `has_user_agreed_latest_tos` is not part of this model.
- **The heavier redirect check.** In tos/views.py:36,94, `re` is used but
  never imported, so the check would raise `NameError`. The model states the
  intended predicate: a `//` before the first `?`, matched from the start.
- **`tos_check`.** It is an empty stub in tos/views.py:64-73, and the
  `check_tos` and `TosView` views it points to are not part of this model.
  So accepting terms and deleting `agreed:<id>` are not modelled.
- **The shown tos/models.py.** It is an older revision that does not parse:
  tos/models.py:41 lacks a comma, and the record holds a `flat_page` link
  rather than content. The records follow the bootstrap's fields
  (`active`, `content`), and only the `save` rule and `__unicode__` are
  modelled. Its `save` calls `self.objects`, which Django refuses on an
  instance; the model follows the evident class-level
  `TermsOfService.objects.exclude(id=…).update(active=False)`. Newer-revision behaviour asserted in the tests is not modelled:
  `NoActiveTermsOfService`, a `ValidationError` on deactivating the last
  active record, and DEBUG warnings.
- **Bootstrap errors.** In `Management.CreateDefaultTosOnSync`,
  `MultipleObjectsReturned` is returned as an outcome rather than raised; the
  table is left unchanged, as with the uncaught exception.
- **The middleware's `KeyError`.** In `Middleware.Gate`, the error of a
  session without `_auth_user_backend` is a result value rather than an
  exception.
- **Cache value types.** Only integers and booleans are modelled, since the
  core stores nothing else. The counter invariant (an integer whenever
  present) is a precondition of every cache operation.

## Findings

| source | as written | input that shows it | evidently intended | confidence | as-written member | corrected member |
|---|---|---|---|---|---|---|
| tos/utils.py:68-69 | the demotion guard looks up `skip_tos_check:<id>` at the default version, but the delete removes it at `key_version` | `key_version` is 2, the cache holds `True` at version 2 for user 7, and user 7 is saved as neither staff nor superuser: the guard misses, nothing is deleted, and the gate still lets user 7 skip the check | the guard reads at `key_version`, so a demoted user always loses the bypass | not executed; high (the tests clear the cache in `setUp`, tos/tests/test_cache.py:21, so `key_version` is absent or 1 and resolves to the default version, where both readings agree) | `Utils.DemotedUserKeepsSkipEntry` | `Utils.Synced` |
