# Default-dialer cache (Telecom `DefaultDialerCache`), modelled in Dafny

Telecom keeps a per-user cache of the default dialer application. The cache maps
a user id to a package name. It is backed by an injected resolver, the
`DefaultDialerManagerAdapter`, and `getDefaultDialerApplication(context, userId)`
is called only on a miss or a refresh; avoiding repeated lookups is the reason the
cache exists, which the test checks through call counts. Two signals refresh the cache: a package broadcast receiver
(changed, added and removed packages) and an observer of the default-dialer setting.

The behaviour modelled here is the one `DefaultDialerCacheTest` pins down:

- A read for a user who is not cached calls the resolver once and stores the
  answer. Later reads return the stored value and make no call. A read without a
  user reads the current user and shares that user's entry.
- A changed or added package re-resolves every cached user at once, whatever
  package it names.
- A removed package, when not part of a replace, re-resolves at once exactly the
  users whose cached dialer is the removed package.
- A removal that is part of a replace does nothing.
- A setting change re-resolves every cached user at once.

Refreshes are eager: the resolver is called during the event, before any further
read. The call counts reach 2 right after the event, before any read
(`DefaultDialerCacheTest.java:111-117`, `207-214`). Refreshes are also selective
for removals: a non-replacing removal of user 0's dialer re-resolves user 0 only
(`145-155`). Only users already in the cache are re-resolved.

Files:

- `cache_spec.dfy`, module `CacheSpec`. The refresh policy as functions:
  `Affected` gives who an event re-resolves, `Refreshed` the cache afterwards,
  `Bumped` the resolver call record afterwards. Reads are values too: `Read` is
  one read and `ReadAll` a run of reads. The lemmas state memoization and the
  refresh policy.
- `dialer_cache.dfy`, module `DialerCache`. The cache is a class with a `map`
  field and methods that rewrite it in place. `ResolverStub` is the injected
  resolver as the test stubs it: answers that can be re-stubbed, and a ghost
  per-user call counter that stands in for the mock's invocation record.
  `Resolve`, `Get`, `GetCurrent`, `RefreshUsers`, `OnPackageEvent` and
  `OnSettingChanged` are proved against the functions of `CacheSpec`.
- `dialer_cache_test.dfy`, module `DialerCacheTest`. One method per test case,
  plus fixture helpers (`SetUp`, `Populate`) and read helpers (`ReadInTurn`,
  `ReadTwice`). Each test-case method returns the values its reads produced and,
  as ghost results, the call counts for users 0, 1 and 2. Its `ensures` states
  what the test asserts for that scenario. The setting-change scenario states the
  intended checks instead (see "## Findings").

## Model

| member | source | states |
|---|---|---|
| `DialerCache.ResolverStub.constructor` | tests/src/com/android/server/telecom/tests/DefaultDialerCacheTest.java:55 | a fresh resolver double answers as given and has recorded no call |
| `DialerCache.ResolverStub.Resolve` | tests/src/com/android/server/telecom/tests/DefaultDialerCacheTest.java:73-78 | the resolver returns the answer currently stubbed for the user and records exactly one more call for that user and for no other |
| `DialerCache.ResolverStub.Stub` | tests/src/com/android/server/telecom/tests/DefaultDialerCacheTest.java:201-206 | re-stubbing a user changes that user's answer only; every other user's answer stays |
| `DialerCache.DefaultDialerCache.constructor` | tests/src/com/android/server/telecom/tests/DefaultDialerCacheTest.java:64-65 | a new cache holds no entry and keeps the injected resolver |
| `DialerCache.DefaultDialerCache.Get` | tests/src/com/android/server/telecom/tests/DefaultDialerCacheTest.java:84-97 | a hit returns the stored dialer and changes no entry and no call count; a miss returns the resolver's answer, stores it, and costs exactly one call for that user |
| `DialerCache.DefaultDialerCache.GetCurrent` | tests/src/com/android/server/telecom/tests/DefaultDialerCacheTest.java:83-93 | the user-less read is exactly a read of the current user, on that user's entry and call count |
| `DialerCache.DefaultDialerCache.RefreshUsers` | tests/src/com/android/server/telecom/tests/DefaultDialerCacheTest.java:111-117 | re-resolves the given cached users at once against the current answers, one call each; the other entries and counts stay |
| `DialerCache.DefaultDialerCache.OnPackageEvent` | tests/src/com/android/server/telecom/tests/DefaultDialerCacheTest.java:107-192 | the new cache and call record are those of refreshing exactly the users `Affected` names for the broadcast: all cached users for changed or added, the removed package's users for a non-replacing removal, nobody for a replacing removal (and nobody for `Other`, a modelling choice) |
| `DialerCache.DefaultDialerCache.OnSettingChanged` | tests/src/com/android/server/telecom/tests/DefaultDialerCacheTest.java:207-217 | a setting change refreshes every cached user at once, one call each, adopting the current answers |
| `CacheSpec.ReadAll` | tests/src/com/android/server/telecom/tests/DefaultDialerCacheTest.java:83-90 | a run of reads yields one value per read |
| `CacheSpec.ReadAllMemoizes` | tests/src/com/android/server/telecom/tests/DefaultDialerCacheTest.java:82-97 | with no event in between, each read returns the stored entry or else the resolver's answer; each user read while uncached costs exactly one call, and every other user none; afterwards every user read is cached with that value |
| `CacheSpec.SameUserResolvedOnce` | tests/src/com/android/server/telecom/tests/DefaultDialerCacheTest.java:83-93 | any number of reads of one uncached user all return the resolver's answer and cost one call for that user and none for any other |
| `CacheSpec.ChangedOrAddedRefreshesAll` | tests/src/com/android/server/telecom/tests/DefaultDialerCacheTest.java:128-136 | a changed or added package, whatever its name, keeps the same users cached, makes every entry the current answer, and costs each cached user exactly one call |
| `CacheSpec.RemovedRefreshesOnlyItsUsers` | tests/src/com/android/server/telecom/tests/DefaultDialerCacheTest.java:145-155 | a non-replacing removal re-resolves a user if and only if that user's cached dialer is the removed package; every other user keeps its entry and its call count |
| `CacheSpec.ReplacingRemovalIsNoop` | tests/src/com/android/server/telecom/tests/DefaultDialerCacheTest.java:182-192 | a removal that is part of a replace re-resolves nobody: cache and call counts are unchanged; the same holds for the `Other` event, which is a modelling choice and not tested behaviour |
| `CacheSpec.RefreshAllAdoptsAnswers` | tests/src/com/android/server/telecom/tests/DefaultDialerCacheTest.java:201-218 | refreshing all cached users leaves no stale entry, whatever the cache held before, and drops or adds no user |
| `CacheSpec.RefreshKeepsCurrent` | tests/src/com/android/server/telecom/tests/DefaultDialerCacheTest.java:123-137 | the model's invariant, which the test does not assert: when a broadcast arrives with no answer re-stubbed (as at 123-137, 140-156, 159-174, 177-193) and no entry is stale, none is afterwards, and every read returns the resolver's answer |
| `CacheSpec.AffectedUsersAdoptAnswers` | tests/src/com/android/server/telecom/tests/DefaultDialerCacheTest.java:109-119 | for any cache and any re-stubbed answers, every user the broadcast re-resolves then reads the resolver's current answer, and every other cached user keeps its entry |
| `DialerCacheTest.SetUp` | tests/src/com/android/server/telecom/tests/DefaultDialerCacheTest.java:57-79 | the fixture: an empty cache whose current user is user 0, over a resolver stubbed to the three dialers for users 0, 1 and 2 that has recorded no call |
| `DialerCacheTest.ReadInTurn` | tests/src/com/android/server/telecom/tests/DefaultDialerCacheTest.java:83-90 | a run of `Get` calls on the cache object returns exactly the values, cache and call record of the run of reads `ReadAll`, so the memoization lemma holds of the class |
| `DialerCacheTest.ReadTwice` | tests/src/com/android/server/telecom/tests/DefaultDialerCacheTest.java:83-84 | a read without a user then a read of the current user, while that user is uncached, return the same answer for exactly one resolver call: one more for that user and none for any other |
| `DialerCacheTest.Populate` | tests/src/com/android/server/telecom/tests/DefaultDialerCacheTest.java:103-105 | reading users 0, 1 and 2 from the fixture returns their three dialers, caches them, and costs one call each |
| `DialerCacheTest.ThreeUsers` | tests/src/com/android/server/telecom/tests/DefaultDialerCacheTest.java:82-97 | eight reads, with and without a user, return each user's own dialer, and each user costs exactly one call |
| `DialerCacheTest.Dialer1PackageChanged` | tests/src/com/android/server/telecom/tests/DefaultDialerCacheTest.java:101-120 | after re-stubbing user 0 and a changed broadcast, all three users count two calls before any read, and user 0 reads its new dialer |
| `DialerCacheTest.RandomOtherPackageChanged` | tests/src/com/android/server/telecom/tests/DefaultDialerCacheTest.java:123-137 | a changed broadcast for a package nobody caches still brings all three users to two calls |
| `DialerCacheTest.PackageRemovedWithoutReplace` | tests/src/com/android/server/telecom/tests/DefaultDialerCacheTest.java:140-156 | removing user 0's dialer brings user 0 to two calls and leaves users 1 and 2 at one |
| `DialerCacheTest.PackageAdded` | tests/src/com/android/server/telecom/tests/DefaultDialerCacheTest.java:159-174 | adding a package nobody caches brings all three users to two calls |
| `DialerCacheTest.PackageRemovedWithReplace` | tests/src/com/android/server/telecom/tests/DefaultDialerCacheTest.java:177-193 | a replacing removal of user 0's dialer leaves all three users at one call |
| `DialerCacheTest.DefaultDialerSettingChanged` | tests/src/com/android/server/telecom/tests/DefaultDialerCacheTest.java:196-219 | after every user is re-stubbed and the setting changes, all three users count two calls, user 1 included, and every later read returns the new dialer |
| `DialerCacheTest.SettingChangeChecksMissUser1` | tests/src/com/android/server/telecom/tests/DefaultDialerCacheTest.java:209-214 | the call-count checks as written accept a run in which user 1 was never re-resolved; the intended checks reject it |

## Left out

- `DefaultDialerCache.java`, the implementation, is not part of this model. The behaviour comes from what the test asserts about it.
- `Context`, `Intent` and `Uri` parsing of the package name, `IntentFilter` and `registerReceiverAsUser` registration, and `ContentObserver`/`Handler` wiring are left out. Broadcasts arrive already classified as a `PkgEvent`. The setting observer is a plain method without the `selfChange` argument of `onChange(boolean)` (line 207), which the test passes as `false` and nothing depends on.
- Affected: any package action other than changed, added or removed arrives as `Other` and is modelled as a no-op. The test sends no such action, and how the receiver handles other actions is not modelled.
- The `TelecomSystem.SyncRoot` lock only serialises calls, so it is left out. The model is sequential.
- Mockito (`verify`, `when`, `ArgumentCaptor`) is replaced by `ResolverStub`. It has an answer function that can be re-stubbed and a ghost per-user call counter.
- A user the mock was never stubbed for gets the empty package name here. Mockito answers null; nothing in the test reads such a user.
- The current user is the one passed at construction. The fixture's context belongs to user 0, so the scenarios pass 0. Where the real cache gets its current user is not modelled.
- Users who were never read are not re-resolved by any event. The test always fills the cache first, so refreshes are limited to cached users.
- The real receiver and observer may have effects beyond the cache and the resolver calls. The test asserts none, so none are modelled.

## Findings

| source | as written | input that shows it | evidently intended | confidence | as-written member | corrected member |
|---|---|---|---|---|---|---|
| tests/src/com/android/server/telecom/tests/DefaultDialerCacheTest.java:209-214 | after the setting change, the call count of USER2 is verified twice and that of USER1 never | a run that leaves user 1 at one call passes: counts `[2, 1, 2]` for users 0, 1, 2 | the second check names USER1, so every user is verified at two calls | high for the missing check; not executed | `DialerCacheTest.SettingChangeChecksMissUser1` | `DialerCacheTest.DefaultDialerSettingChanged` |
