# Verified model of the Componi API's hand-kept state

The service keeps several kinds of state consistent by hand: tag sets beside cached entries, sessions beside
account rows, counters beside join tables, version numbers beside versions, an audit log beside the columns it
explains. This project models those parts in Dafny and proves what they guarantee over whole runs, and, where a
guarantee fails, exactly when it does.

`dafny verify dfyconfig.toml` checks everything.

## Layout

Each part has a file with the model (state, operations, steps, runs), one or more files of theorems about runs, and
a file with the services themselves as classes, statement by statement, each method proved equal to the model's step.
The `Effects` modules read the steps the other way round: for each table, who may change a row and which steps put it
in, change it or take it out, in the columns' own terms and with the numbers written out.

| part | model | theorems | classes |
|---|---|---|---|
| Redis cache and tags | `Cache` | `Coverage`, `CacheEffects` | `Cache` |
| rate limiter | `Throttler` | `ThrottlerBounds`, `ThrottlerLag`, `ThrottlerLagTight`, `ThrottlerCrashes` | `Throttler` |
| accounts, sessions, audit log, guard | `Accounts` | `AccountRuns`, `AccountEffects`, `ReadThrough`, `Staleness` | `AccountServices` |
| components, slugs, cached `findById` | `Slugs`, `Catalog` | `Slugs`, `CatalogRuns`, `CatalogEffects`, `ReadThrough`, `Staleness` | `CatalogServices` |
| social ledger and its counters | `Relations`, `Ledger` | `LedgerRuns`, `LedgerEffects`, `LedgerLaws`, `LedgerDrift`, `LedgerRaces`, `Lineage` | `LedgerServices`, `Lineage` |
| versions | `Versions` | `Versions`, `VersionEffects` | `VersionsServices` |
| feeds, blocks, mutes | `Feed` | `FeedRuns`, `FeedEffects` | `FeedServices` |
| notifications and retries | `Notifications`, `Retries` | `Notifications`, `Retries` | `NotificationServices` |
| embedding backfill | `Backfill` | `Backfill`, `BackfillTurns` | `BackfillServices` |
| embedding promise chain | `Serializer` | `Serializer` | `SerializerServices` |

`Basics` and `Text` hold the option and result types, the block test and JavaScript's `trim`.

Conventions. A database transaction is one step, together with the cache invalidation that follows it, unless a
theorem is about pulling them apart. A unique-index or foreign-key violation is the error `Conflict`. Ids that carry
an order are creation ordinals. What the environment decides is a parameter: whether Redis answers (`up`, `readUp`,
`storeUp`) or after how many round trips it stops (`answered`), whether the audit insert succeeds (`auditWorks`), the
embedder as a set of failing ids or the outcome of each run, and clocks. All services share one Redis: the runs of
accounts, catalogue and feeds carry a step `Elsewhere` for anything the others do to it, with every service's own TTLs.
`Cell.labels`, `Counter.lost` and the throttler's `starts` and `hits` are history: no operation reads them.

Components are modelled three times, for the columns and the cache (`Catalog`), the counters (`Ledger`) and the
versions (`Versions`). What one decides and another needs is a parameter there: `named` (a slug was free), `visible`
(the parent may be forked), `ready` (its version is there and a slug was free).

## Where the code does less than it says

- Throttling is a fixed window started by the first request, not the sliding window of the README (line 114). A
  window of `n * ttl` admits up to `(n + 1) * limit - 1` requests, and that number is reached.
- README line 169 and `session.service.ts:23-24` bound a suspended user's remaining access by 30 seconds. The bound
  is 30 seconds plus the longest time a reader takes between its row read and its cache write, and is reached. In the
  same way a component made private or removed can be shown for 120 seconds plus that time.
- `saveDraft` checks that the component is a draft, and writes the version some awaits later without checking again.
  An autosave in flight when the author publishes changes the published code. A published version is final from a
  moment on if and only if no draft save that would change it is under way then. The component row itself is written
  back whole: a save on an earlier load undoes a publication, and a version published since breaks the numbering.
- `account-privacy.service.ts:135-138` expects the request after an erasure to be refused with 401. The guard lets a
  token without a session through as a plain user (`supabase-auth.guard.ts:74-79`).
- The admin floor in `setRole` is a count in the same transaction as the update. A demotion committed on an earlier
  count keeps the floor if and only if another live administrator is left when it commits, and overlapping demotions
  if and only if they do not name every administrator. The floor does not cover the last administrator erasing their
  own account.
- `remove` of components and comments, and both moderator deletions, load the row before their transaction; two
  overlapping calls decrement the counter twice. A removal committed on an earlier load keeps the count if and only if
  the row is still live then.
- `follow` reads the blocks before it inserts. A block that commits in between is followed across; without such an
  overlap no follow ever crosses a block.
- The notification dedupe reads before it inserts, so overlapping deliveries of one key both insert; and a job whose
  attempts together take half a minute or more can insert twice on its own.
- The backfill takes the fifty oldest pending components, so fifty that always fail hide everything behind them: a
  component's turn is certain to come if and only if fewer than fifty failing ones are at least as old.
- The purge and the erasure delete rows without touching counters, and re-tagging a draft does not give usage back;
  `Counter.lost` counts what they leave behind, and `LedgerDrift` says for each of them exactly when it is nothing.
- A request can be refused later than ttl + blockDuration after the last admitted one: a slow PEXPIRE or block write
  stretches that by up to three times its delay. It is refused however late it comes if and only if the counter has no
  expiry and the limit is used up, which takes `limit` crashes before PEXPIRE.
- An invalidation misses an entry stored under the tag between its SMEMBERS and the DEL of the tag set, whether
  SMEMBERS listed that entry or not, and only such an entry.

## Model

| member | source | states |
|---|---|---|
| Cache.CacheService.Get | src/common/cache/cache.service.ts:39-47 | a live JSON entry is returned; missing, expired, non-string or unreachable reads as a miss |
| Cache.CacheService.Set | src/common/cache/cache.service.ts:49-75 | oversized payloads change nothing; otherwise the entry and every tag set, in order, end as one `Put`, tag sets with twice the TTL |
| Cache.CacheService.Del | src/common/cache/cache.service.ts:77-84 | exactly the named entries go |
| Cache.CacheService.InvalidateTags | src/common/cache/cache.service.ts:89-102 | the loop over tags removes all listed members and the sets; a connection lost after any number of round trips leaves exactly the ones before it done |
| Cache.CacheService.Wrap | src/common/cache/cache.service.ts:109-121 | a hit is returned and nothing changes; a miss, a failed read included, returns the loader's value and stores it unless null or the store fails |
| CacheEffects.StoredForItsTtl | src/common/cache/cache.service.ts:49-75 | what is set answers under its key for exactly its TTL in seconds; over 256 KiB nothing is stored; no other key's answer moves |
| CacheEffects.ListedForTwiceItsTtl | src/common/cache/cache.service.ts:65-71 | each of its tags lists it for exactly twice the TTL |
| CacheEffects.DeletedIsGone | src/common/cache/cache.service.ts:77-84 | a deletion takes the named entries and no other |
| CacheEffects.CutInvalidation | src/common/cache/cache.service.ts:89-102 | which part of an invalidation is done when the connection is lost after any number of round trips |
| CacheEffects.InvalidatedIsGone | src/common/cache/cache.service.ts:93-97 | a tag's invalidation takes exactly the entries its set lists, and the set |
| Coverage.CoverageExactly | src/common/cache/cache.service.ts:65-71 | over all runs, every live entry is listed by a live set of each of its tags if and only if, tag by tag, no TTL in use exceeds twice another |
| Coverage.ServicesAreCovered | src/common/session/session.service.ts:68 | the store all services share, with 30, 120 and 300 s on their tags in any order, is covered throughout |
| Coverage.RunKeeps | src/common/cache/cache.service.ts:49-102 | the invariant behind it: a tag set outlives every entry it lists |
| Coverage.InvalidationIsComplete | src/common/cache/cache.service.ts:89-102 | after any run, invalidating a tag leaves no live entry tagged with it and does not disturb entries never tagged with it |
| Coverage.InvalidateUpToKeeps | src/common/cache/cache.service.ts:89-102 | an invalidation cut off at any round trip keeps the invariant: what it missed the next one still finds |
| Coverage.SplitInvalidationCovers | src/common/cache/cache.service.ts:93-97 | after any run, with any operations between SMEMBERS, the DEL of the members and the DEL of the tag set: coverage holds until the last DEL, and beyond it if and only if no live entry carries the tag at that moment |
| Coverage.OnlyLateSetsEscape | src/common/cache/cache.service.ts:93-97 | without a `set` under the tag between those round trips coverage survives and nothing live carries the tag |
| Coverage.MembersWereTagged | src/common/cache/cache.service.ts:67-70 | whatever the TTLs, a tag set never lists a key that was not written with the tag |
| Coverage.ShorteningUncovers | src/common/cache/cache.service.ts:69 | for any tag and two TTLs with a > 2b, a three-step run leaves a live entry no invalidation can find |
| Coverage.SplitInvalidationOrphans | src/common/cache/cache.service.ts:93-97 | a run where a `set` between SMEMBERS and the tag's DEL leaves an entry that later invalidations miss |
| Coverage.RefillOrphans | src/common/cache/cache.service.ts:93-97 | a run where a member that SMEMBERS did list is stored again between the two DELs and later invalidations miss it |
| Coverage.EntryKeyIsTagKey | src/common/cache/cache.service.ts:123-129 | entry keys and tag keys meet exactly for cache keys that begin with `tag:` |
| Throttler.RedisThrottlerStorage.Increment | src/common/throttler/redis-throttler.storage.ts:24-83 | in each of the four exits the record, in whole seconds that cover the milliseconds left and no more, and the counter, its expiry and the block afterwards, each round trip at an instant of its own |
| Throttler.RunKeeps | src/common/throttler/redis-throttler.storage.ts:34-75 | for every interleaving of clients between their awaits, crashes included: lifetimes at least `ttl` apart, hits numbered without gaps within one |
| ThrottlerBounds.EpochBound | src/common/throttler/redis-throttler.storage.ts:61-66 | at most `limit` admissions in one counter lifetime, lifetimes `ttl` apart, for every interleaving |
| ThrottlerBounds.WindowBound | src/common/throttler/redis-throttler.storage.ts:44-66 | at most (n + 1) * limit - 1 admissions in any half-open window of n * ttl, for every interleaving |
| ThrottlerBounds.WindowBoundIsTight | src/common/throttler/redis-throttler.storage.ts:44-66 | for every limit and n one run reaches that number |
| ThrottlerBounds.RequestIsAtomic | src/common/throttler/redis-throttler.storage.ts:34-82 | the four awaits run back to back are the uninterrupted request of `Increment` |
| ThrottlerBounds.RequestTakesTime | src/common/throttler/redis-throttler.storage.ts:34-82 | with time passing at every await and nobody in between they are `Increment` at those instants |
| ThrottlerBounds.NoLockout | src/common/throttler/redis-throttler.storage.ts:34-75 | with uninterrupted requests, each refusal follows an admission less than ttl + blockDuration earlier |
| ThrottlerLag.PromptNoLockout | src/common/throttler/redis-throttler.storage.ts:34-75 | over all interleavings where no client that opened a counter crashes before its PEXPIRE and none lives on for longer than `lag` between MULTI and answer: a counted refusal follows an admission by less than ttl + 2 lag, one at the block key by less than ttl + blockDuration + 3 lag - 1 |
| ThrottlerLagTight.PromptBoundIsTight | src/common/throttler/redis-throttler.storage.ts:44-75 | for every limit, with lag < ttl and blockDuration < ttl + lag, a run without any crash reaches that span to the millisecond |
| ThrottlerBounds.BlockIsInert | src/common/throttler/redis-throttler.storage.ts:34-42 | while the block lives, no sequence of requests extends it or moves the counter |
| ThrottlerBounds.BlockStands | src/common/throttler/redis-throttler.storage.ts:66-67 | over all interleavings a block that is set is not moved while it lives, by requests past their check either |
| ThrottlerCrashes.RefusedHoweverLate | src/common/throttler/redis-throttler.storage.ts:44-66 | for any keys, a request outside a live block is refused at whatever time it comes if and only if the counter has no expiry and the limit is used up |
| ThrottlerCrashes.ShutOutTakesCrashes | src/common/throttler/redis-throttler.storage.ts:44-64 | over all interleavings such a state, with no client about to set the expiry, has cost `limit` crashes between MULTI and PEXPIRE |
| ThrottlerCrashes.CrashedCounterRefusesLate | src/common/throttler/redis-throttler.storage.ts:44-64 | for every limit, that many crashes before PEXPIRE and the next request is refused however late it comes |
| AccountServices.AdminService.Suspend | src/modules/admin/admin-users.service.ts:34-86 | the checks in order, row, audit entry and dropped session; a blank reason or a failed audit insert rolls all of it back |
| AccountServices.AdminService.Unsuspend | src/modules/admin/admin-users.service.ts:88-113 | clears the suspension of any stored row, erased ones too |
| AccountServices.AdminService.SetRole | src/modules/admin/admin-users.service.ts:120-181 | self-demotion and last-admin refusals, promote or demote entry, dropped session even without a change |
| AccountServices.AdminService.CountOtherAdmins | src/modules/admin/admin-users.service.ts:146-156 | the number of live administrators besides the target |
| AccountServices.AdminService.DeleteAccount | src/modules/users/account-privacy.service.ts:144-226 | the account and audit part of erasure |
| AccountServices.AdminService.Accept | src/modules/users/consent.service.ts:82-109 | records the server's versions; on an erased account the update goes through and the answer is not found |
| AccountServices.AdminService.AppendEntry | src/common/audit/audit.service.ts:73-102 | appends one trimmed entry, refuses a blank reason where one is required, or fails with the insert |
| AccountServices.AdminService.Hydrate | src/common/session/session.service.ts:33-70 | cached session, or the row's, stored for 30 seconds under the user's tag |
| AccountEffects.WhoMaySuspend | src/modules/admin/admin-users.service.ts:41-62 | the exact conditions of each answer: 720 hours for moderators, permanent for admins only, never oneself, never without a reason |
| AccountEffects.WhoMaySetRole | src/modules/admin/admin-users.service.ts:126-156 | the exact conditions of each answer: no self-demotion, no last admin, a reason for a change |
| AccountEffects.EveryColumn | src/modules/admin/admin-users.service.ts:34-181 | for every step, which columns of a row change and to what: a suspension of h hours ends h * 3 600 000 ms from now, a permanent one with the year 9999 |
| AccountEffects.EntrySays | src/common/audit/audit.service.ts:73-102 | a call that goes through leaves one entry, naming its actor, its target, the trimmed reason and what was done; any other step leaves none |
| AccountEffects.AuditIsAllOrNothing | src/common/audit/audit.service.ts:73-102 | a failed audit insert takes the whole call with it: nothing changes; calls that leave no entry do not depend on it |
| AccountEffects.SuspensionIsServed | src/modules/admin/admin-users.service.ts:57-86 | from a suspension on, through any run in which nobody suspends, frees or erases the target again, the guard refuses exactly until the hours are over |
| AccountEffects.HydrateCaches | src/common/session/session.service.ts:33-70 | a cached session is the answer; a session read from the row stays cached for exactly 30 s |
| AccountRuns.HydrateIsTransparent | src/common/session/session.service.ts:33-74 | in every reachable state, other services' traffic on the same Redis included, `hydrate` answers what the row says: the cache cannot be told apart from the table |
| AccountRuns.GuardAfterwards | src/common/guards/supabase-auth.guard.ts:73-96 | right after a suspension the guard refuses until it ends; after an erasure there is no session and the guard admits as a plain user |
| AccountRuns.SessionAfterwards | src/modules/admin/admin-users.service.ts:112-180 | the next `hydrate` after `setRole`, `unsuspend` or `accept` shows exactly that change |
| AccountRuns.AuditReplays | src/common/audit/audit.service.ts:73-102 | folding the log from the initial columns rebuilds every role and suspension; each role entry's previous role is the replay of the entries before it |
| AccountRuns.AuditExplainsEveryInterval | src/common/audit/audit.service.ts:73-102 | the log only grows, and its entries since any moment account for every privileged change since |
| AccountRuns.RefusalIsInvisible | src/modules/admin/admin-users.service.ts:59-81 | a refused call, blank reasons included, can be struck from any run: rows, log, cache and every later answer are the same |
| AccountRuns.FloorStep | src/modules/admin/admin-users.service.ts:145-156 | a step empties the set of live admins if and only if the only one erases their own account |
| AccountRuns.FloorHolds | src/modules/admin/admin-users.service.ts:145-156 | without erasures some live admin remains after any run, whatever role the actors believe they have |
| AccountRuns.DelayedDemotionKeepsFloor | src/modules/admin/admin-users.service.ts:130-163 | a demotion, to whatever role, committed on an earlier check leaves a live admin if and only if another one than its target is there at the commit |
| AccountRuns.OverlappingDemotions | src/modules/admin/admin-users.service.ts:130-163 | any demotions of admins that all counted first, each with its own actor, role and reason, admins demoting each other included: each passes, and an admin is left if and only if they do not name all of them |
| AccountRuns.OverlappingDemotionsBreakFloor | src/modules/admin/admin-users.service.ts:130-163 | in particular, two overlapping demotions of the last two admins leave none |
| ReadThrough.BoundedStaleness | src/common/cache/cache.service.ts:109-121 | for any cached row, over all interleavings, invalidations lost or half done: a read begun lag + TTL after a change gets a row with every property the change established and later changes kept |
| ReadThrough.StalenessIsTight | src/common/cache/cache.service.ts:109-121 | for any row that is cached and any change, a run in which a read begun one millisecond earlier still gets the old row |
| Staleness.SuspensionSeen | src/common/session/session.service.ts:33-70 | over all interleavings, invalidations lost or half done: a `hydrate` begun lag + 30 s after a suspension sees it and the guard refuses |
| Staleness.SuspensionSeenNoSooner | src/common/session/session.service.ts:47-68 | with the invalidation done in full, a request one millisecond earlier is still admitted |
| Staleness.HidingSeen | src/modules/components/components.service.ts:216-243 | lag + 120 s after a component was made private or removed, `findById` shows it to its author alone, whatever invalidations were lost |
| Staleness.HidingSeenNoSooner | src/modules/components/components.service.ts:240 | with the invalidation done in full, one millisecond earlier anyone can still be shown the public row |
| Staleness.VisibleIsUncachedVerdict | src/modules/components/components.service.ts:224-238 | the uncached verdict is visibility and no block |
| Slugs.SlugIsJoinedWords | src/modules/components/components.service.ts:480-490 | the pipeline yields the maximal [a-z0-9] words joined by single hyphens, cut at 80, or the fallback |
| Slugs.SlugWellFormed | src/modules/components/components.service.ts:480-490 | 1 to 80 characters of [a-z0-9-], no leading and no doubled hyphen |
| Slugs.SlugifySettles | src/modules/components/components.service.ts:486-488 | a second pass changes a slug if and only if the cut left a trailing hyphen, and a third never does |
| Slugs.CandidatesDistinct | src/modules/components/components.service.ts:448 | the five candidates are pairwise different |
| Slugs.CandidatesAre | src/modules/components/components.service.ts:448 | the slug itself, then -2, -3, -4 and -5 |
| Slugs.FirstFreeMeans | src/modules/components/components.service.ts:446-478 | allocation returns the first free candidate, or fails because all are taken |
| Slugs.FailureNeedsFive | src/modules/components/components.service.ts:464 | a failure means at least five slugs of the author are in use |
| CatalogServices.ComponentsService.InsertWithUniqueSlug | src/modules/components/components.service.ts:440-465 | the retry loop stores the row under the first candidate the unique index accepts, or fails and stores nothing |
| CatalogServices.ComponentsService.FindUniqueSlug | src/modules/components/components.service.ts:467-478 | the first candidate no other live component of the author holds |
| CatalogServices.ComponentsService.FindById | src/modules/components/components.service.ts:216-243 | the cached branch with its block check, the five refusals, and the store of public published rows |
| CatalogServices.ComponentsService.Create | src/modules/components/components.service.ts:45-88 | the row with its defaults under the first free slug, and the invalidation; drafts invalidate nothing |
| CatalogServices.ComponentsService.Fork | src/modules/components/components.service.ts:90-160 | the refusals in order and the copied fields |
| CatalogServices.ComponentsService.ApplyMetadata | src/modules/components/components.service.ts:379-406 | a new slug exactly on a changed non-empty name, then the fields sent |
| CatalogServices.ComponentsService.SetFields | src/modules/components/components.service.ts:395-404 | fields left out stay, null description and category clear, an empty framework is ignored |
| CatalogServices.ComponentsService.SaveDraft | src/modules/components/components.service.ts:272-291 | drafts only; metadata and tags change in place, the cache is left alone |
| CatalogServices.ComponentsService.Publish | src/modules/components/components.service.ts:293-314 | the one way out of draft |
| CatalogServices.ComponentsService.Update | src/modules/components/components.service.ts:316-323 | owner only, with the component's tag dropped |
| CatalogServices.ComponentsService.Remove | src/modules/components/components.service.ts:325-332 | soft deletion with the component's tag dropped |
| CatalogServices.ComponentsService.SetThumbnail | src/modules/components/components.service.ts:334-344 | only an https URL on the storage's own host is taken, foreign rows are not found, drafts invalidate nothing |
| CatalogEffects.WhoMayRead | src/modules/components/components.service.ts:224-238 | the uncached answer in the row's own columns: private rows and drafts only to their author, nothing across a block |
| CatalogEffects.WhoMayFork | src/modules/components/components.service.ts:90-109 | not found exactly when the user cannot read the parent or it is a draft; a success means the parent was public or the user's own, published, and not across a block |
| CatalogEffects.WhoMayChange | src/modules/components/components.service.ts:272-332 | not found exactly for anyone but the author of a component that is there |
| CatalogEffects.WhoMaySetThumbnail | src/modules/components/components.service.ts:334-344 | the origin before the owner: https on the storage's host |
| CatalogEffects.OnlyOwnersChange | src/modules/components/components.service.ts:272-344 | over every step, a row changes only by its author's own call or a takedown, counters and current version apart, goes only by the purge, and never changes author |
| CatalogEffects.EveryFlag | src/modules/components/components.service.ts:293-332 | only its author's publication ends a draft, only removal hides a row |
| CatalogEffects.DraftIsSaved | src/modules/components/components.service.ts:272-291 | a saved draft has exactly the fields that were sent, and no other row or cached answer moves |
| CatalogEffects.ChangesDropTags | src/modules/components/components.service.ts:82-344 | in every reachable state, which tags each change leaves no live entry under, by name; work on drafts leaves the cache alone |
| CatalogEffects.ReadIsCached | src/modules/components/components.service.ts:216-243 | a public, published row that is read answers from the cache for exactly 120 s |
| CatalogRuns.CacheTransparent | src/modules/components/components.service.ts:216-243 | in every reachable state, other services' traffic on the same Redis included, cached `findById` gives every viewer the uncached verdict and the same visible fields |
| CatalogRuns.RunFaithful | src/modules/components/components.service.ts:272-344 | the invariant behind it: a live entry is of a stored, public, published row and agrees with it |
| CatalogRuns.CreatedIsReadBack | src/modules/components/components.service.ts:45-88 | what an author creates is what they read back, under the first free slug of the name |
| CatalogRuns.ForkIsReadBack | src/modules/components/components.service.ts:111-124 | a fork reads back as its parent's visible copy owned by the forking user, under the first free slug, public unless asked otherwise |
| CatalogRuns.UpdateIsReadBack | src/modules/components/components.service.ts:316-406 | through the cache, exactly the sent fields changed, and the slug exactly with the name |
| CatalogRuns.RemovedIsGone | src/modules/components/components.service.ts:325-332 | a removed component is found by nobody, cached copies included |
| CatalogRuns.SlugsStayUnique | src/database/migrations/1745000000000-InitialSchema.ts:69 | (author, slug) identifies a live component in every sequential run |
| LedgerServices.SocialService.Like | src/modules/social/social.service.ts:30-43 | row and counter together, once; hidden and missing components look the same |
| LedgerServices.SocialService.Unlike | src/modules/social/social.service.ts:57-71 | decrements only when a row went |
| LedgerServices.SocialService.Favorite | src/modules/social/social.service.ts:73-87 | as like, on favorites |
| LedgerServices.SocialService.Unfavorite | src/modules/social/social.service.ts:100-107 | decrements only when a row went |
| LedgerServices.SocialService.Follow | src/modules/social/social.service.ts:109-125 | self, missing and blocked targets refused; one row, both counters |
| LedgerServices.SocialService.Unfollow | src/modules/social/social.service.ts:139-147 | one row, both counters, only when a row went |
| LedgerServices.BlocksService.Block | src/modules/moderation/blocks.service.ts:31-83 | the block row and both follows with all four counters; a second block changes nothing |
| LedgerServices.BlocksService.RemoveFollow | src/modules/moderation/blocks.service.ts:64-82 | one direction of the teardown |
| LedgerServices.BlocksService.Unblock | src/modules/moderation/blocks.service.ts:94-98 | only the block row goes |
| LedgerServices.BlocksService.IsBlockedEitherWay | src/modules/moderation/blocks.service.ts:117-128 | true exactly for a row in either direction between two different users |
| LedgerServices.BlocksService.Target | src/modules/social/social.service.ts:32-36 | the refusals shared by like, favorite and fork |
| LedgerServices.CommentsService.Create | src/modules/comments/comments.service.ts:30-44 | comment and counter together |
| LedgerServices.CommentsService.Remove | src/modules/comments/comments.service.ts:56-66 | own live comments only; hidden and uncounted together |
| LedgerServices.CommentsService.Delete | src/modules/admin/admin-content.service.ts:71-107 | the moderator's removal; a blank reason rolls it back |
| LedgerServices.CollectionsService.AddComponent | src/modules/collections/collections.service.ts:50-66 | idempotent row and counter; foreign collections forbidden |
| LedgerServices.CollectionsService.RemoveComponent | src/modules/collections/collections.service.ts:68-81 | decrements only when a row went |
| LedgerServices.CollectionsService.Remove | src/modules/collections/collections.service.ts:83-88 | soft deletion keeps items and counter |
| LedgerServices.ComponentsService.Create | src/modules/components/components.service.ts:45-82 | row, tags and author's counter in one step, nothing if no slug was free |
| LedgerServices.ComponentsService.Fork | src/modules/components/components.service.ts:91-156 | row, link, parent's tags, parent's and author's counters in one step |
| LedgerServices.ComponentsService.AttachTags | src/modules/components/components.service.ts:408-438 | one insert for all tag rows, one increment over all tags |
| LedgerServices.ComponentsService.ReplaceTags | src/modules/components/components.service.ts:372-377 | old tag rows go without their usage |
| LedgerServices.ComponentsService.Remove | src/modules/components/components.service.ts:325-330 | own live components only; hidden and uncounted together |
| LedgerServices.ComponentsService.Delete | src/modules/admin/admin-content.service.ts:27-62 | the moderator's removal; a blank reason rolls it back |
| LedgerServices.HousekeepingService.DeleteAccount | src/modules/users/account-privacy.service.ts:152-207 | the erasure's deletions, in order, as one step |
| LedgerServices.HousekeepingService.Purge | src/modules/housekeeping/purge.service.ts:42-71 | both statements with everything the foreign keys cascade to |
| LedgerRuns.RunKeeps | src/modules/social/social.service.ts:30-147 | over all runs of 24 kinds of step: each of the nine counters equals its rows plus the rows it was never told about; authors' counts are exact; follows mirror, join known users and cross no block; fork links form a forest |
| LedgerRuns.PurgeComponentsKeeps | src/modules/housekeeping/purge.service.ts:49-51 | the component purge, cascades and ON DELETE SET NULL included, keeps all of that |
| LedgerRuns.EraseKeeps | src/modules/users/account-privacy.service.ts:162-185 | so does erasure |
| LedgerRuns.BlockFollows | src/modules/moderation/blocks.service.ts:36-83 | so does a block, for the follow graph read from both ends |
| LedgerEffects.WhoMayReact | src/modules/social/social.service.ts:30-87 | the exact conditions of each answer to a like or a favorite, blocks included |
| LedgerEffects.WhoMayFollowAndBlock | src/modules/social/social.service.ts:109-125 | the same for follows and blocks |
| LedgerEffects.WhoMayChangeComponents | src/modules/components/components.service.ts:325-332 | the same for creating, forking, re-tagging, removing and taking down |
| LedgerEffects.WhoMayComment | src/modules/comments/comments.service.ts:30-66 | the same for comments: removed by their author, or by a moderator with a reason |
| LedgerEffects.WhoMayCollect | src/modules/collections/collections.service.ts:50-88 | the same for collections: a stranger is forbidden |
| LedgerEffects.EveryReaction | src/modules/social/social.service.ts:30-107 | for every step, the exact condition under which a like or favorite row is there afterwards |
| LedgerEffects.EveryFollow | src/modules/social/social.service.ts:109-147 | the same for follows and blocks |
| LedgerEffects.EveryComponent | src/modules/components/components.service.ts:325-330 | the same for components, with author, removal and fork link |
| LedgerEffects.EveryComment | src/modules/comments/comments.service.ts:56-66 | the same for comments: gone exactly when struck or when the parent goes |
| LedgerEffects.NewComponent | src/modules/components/components.service.ts:45-124 | which steps add a component, whose it is and what it was forked from |
| LedgerEffects.EveryCollection | src/modules/collections/collections.service.ts:83-88 | the same for collections, which go with their owner's account |
| LedgerEffects.EveryItem | src/modules/collections/collections.service.ts:50-81 | the same for collection items |
| LedgerEffects.EveryLabel | src/modules/components/components.service.ts:372-438 | the same for tags: what the component was created, forked or last re-tagged with |
| LedgerDrift.DriftHasACause | src/modules/housekeeping/purge.service.ts:42-71 | likes, favorites and follows are exact without erasure; collections and forks without the component purge; comments without either purge; tag usage without purge and re-tagging |
| LedgerLaws.CountersCount | src/modules/social/social.service.ts:30-147 | in every reachable state each counter is its rows plus the non-negative number lost on it, and `componentsCount` is exactly the author's live components |
| LedgerLaws.WallHolds | src/modules/moderation/blocks.service.ts:36-91 | in every reachable state no follow joins two users with a block in either direction |
| LedgerDrift.ErasureDrift | src/modules/users/account-privacy.service.ts:162-167 | erasure leaves exact counts exact if and only if the user had no like, favorite or follow |
| LedgerDrift.CommentPurgeDrift | src/modules/housekeeping/purge.service.ts:56-58 | the comment purge leaves comment counts exact if and only if no live reply hangs from what it deletes |
| LedgerDrift.CommentPurgeOvercounts | src/modules/housekeeping/purge.service.ts:56-58 | a run that ends with no comment and a count of one |
| LedgerDrift.ForkPurgeDrift | src/modules/housekeeping/purge.service.ts:49-51 | the component purge leaves fork counts exact if and only if every purged fork goes together with its parent |
| LedgerDrift.ItemPurgeDrift | src/modules/housekeeping/purge.service.ts:49-51 | and collection counts if and only if no purged component is in a collection |
| LedgerDrift.TagPurgeDrift | src/modules/housekeeping/purge.service.ts:49-51 | and tag usage if and only if no purged component carries a tag |
| LedgerDrift.CommentsOfPurgedDrift | src/modules/housekeeping/purge.service.ts:49-51 | and comment counts if and only if every live comment that cascades away sits on a purged component |
| LedgerDrift.RetagDrift | src/modules/components/components.service.ts:372-377 | re-tagging a draft leaves usage exact if and only if the draft had no tag |
| LedgerRaces.DelayedRemovalKeepsCount | src/modules/components/components.service.ts:325-330 | a removal committed on an earlier load keeps the author's count exact if and only if the component is still live |
| LedgerRaces.DelayedHidingKeepsCount | src/modules/comments/comments.service.ts:56-66 | a comment removal committed on an earlier load keeps the count if and only if the comment is still live or its component is gone |
| LedgerRaces.OverlappingRemovesUndercount | src/modules/components/components.service.ts:325-330 | in particular, two overlapping removals leave the author's count one short |
| LedgerRaces.OverlappingCommentRemovalsUndercount | src/modules/comments/comments.service.ts:56-66 | in particular, two overlapping comment removals leave the comment count one short of where it was |
| LedgerLaws.EveryCallIsUndone | src/modules/social/social.service.ts:30-147 | in every reachable state unlike, unfavorite, unfollow, removing an item and removing a comment restore what like, favorite, follow, adding and commenting changed, rows and counters; a second first call changes nothing |
| LedgerLaws.BlockLasts | src/modules/moderation/blocks.service.ts:36-91 | from a block on, through any run, until its author lifts it or one of the two is erased: neither follows the other and every attempt to is refused |
| LedgerLaws.UnblockRestoresNoFollow | src/modules/moderation/blocks.service.ts:94-98 | in every reachable state, unblocking does not restore the follows |
| LedgerRaces.DelayedFollowKeepsWall | src/modules/social/social.service.ts:111-123 | an insert made on an earlier check keeps the wall if and only if no block has landed since |
| LedgerRaces.FollowOvertakenByBlock | src/modules/social/social.service.ts:114-121 | check, block by the other side, any steps that leave the block, insert: the follow stands across the block |
| Lineage.AncestorQuery | src/modules/components/components.service.ts:251-262 | the recursive query terminates and returns the ancestors, nearest first |
| Lineage.AncestorsExactly | src/modules/components/components.service.ts:253-259 | a row is returned if and only if it is some positive number of fork links above the start |
| Lineage.AncestorsDescend | src/modules/components/components.service.ts:253-259 | no repeats and never the start: each ancestor is older than the one before |
| Lineage.AncestorsAreNthParents | src/modules/components/components.service.ts:253-259 | the n-th row is the n-th fork link, and the list ends at the first null |
| Lineage.LineageHolds | src/modules/components/components.service.ts:245-262 | all of it in every reachable state, creation, forks, removals and purges included |
| Lineage.DescendantQuery | src/modules/components/components.service.ts:263-268 | the fifty newest live forks, newest first |
| Lineage.DescendantsInvertAncestors | src/modules/components/components.service.ts:263-268 | a component is on that page if and only if it is live, its nearest ancestor is this one and fewer than fifty live forks are newer |
| Lineage.PurgeCutsLineage | src/database/migrations/1745000000000-InitialSchema.ts:66 | in every reachable state the purge cuts a survivor's ancestry at the first purged ancestor and leaves a forest |
| Lineage.ForkExtendsLineage | src/modules/components/components.service.ts:113-124 | a fork's lineage is its parent followed by its parent's, and no other lineage changes |
| VersionsServices.VersionsService.Publish | src/modules/versions/versions.service.ts:30-62 | the refusals, the next number, the row and the repointed component |
| VersionsServices.VersionsService.LatestNumber | src/modules/versions/versions.service.ts:40-47 | the highest number, or zero |
| VersionsServices.VersionsService.Create | src/modules/components/components.service.ts:51-71 | a component with its version 1, pointing at it |
| VersionsServices.VersionsService.Fork | src/modules/components/components.service.ts:91-137 | the refusals and the copied body |
| VersionsServices.VersionsService.SaveDraft | src/modules/components/components.service.ts:357-370 | only a draft's current version is edited, and only in what was sent |
| Versions.VersionsContiguous | src/modules/versions/versions.service.ts:35-61 | with read and insert apart, in every reachable state each component's versions are exactly 1..n and its current version is n |
| Versions.CommitOutcome | src/database/migrations/1745000000000-InitialSchema.ts:87 | a publish goes through if and only if its component is still stored and nobody has published since its read; a losing one leaves no trace |
| Versions.FirstCommitWins | src/modules/versions/versions.service.ts:40-59 | of any number of publishers with the same read the first to insert wins and the others change nothing |
| Versions.PublishAlone | src/modules/versions/versions.service.ts:35-61 | with nothing in between, the two halves are the whole and never conflict |
| Versions.ForkCopiesLatest | src/modules/components/components.service.ts:104-137 | a fork's version 1 is the parent's latest body; a missing source never happens |
| Versions.SaveDraftAlone | src/modules/components/components.service.ts:272-291 | with nothing in between, the check and the write of a draft save are the whole |
| Versions.LateSaveKeepsPublished | src/modules/components/components.service.ts:357-370 | a write on an earlier check leaves every published version as it was if and only if its version is unpublished still, or gone, or the edit changes nothing |
| Versions.PublishedStaysFinal | src/modules/components/components.service.ts:272-279 | from a moment on, no run changes a published version, and it goes only with its component, for good, if and only if no draft save that would change it is between its check and its write at that moment |
| Versions.AutosaveOvertakenByPublish | src/modules/components/components.service.ts:272-314 | check, publish, write: for every draft and every edit the published code is changed |
| Versions.LateHeadSave | src/modules/components/components.service.ts:284-289 | a component row written back whole on an earlier load keeps the numbering if and only if no version was published since, and keeps the component published if and only if it was loaded so |
| VersionEffects.WhoMayPublish | src/modules/versions/versions.service.ts:35-38 | only the author: a stranger is forbidden, a missing component not found, in one piece or split |
| VersionEffects.PublishedContents | src/modules/versions/versions.service.ts:40-61 | the new row has exactly the submitted code, dependencies and entry file under the next number, and everything else is as before |
| VersionEffects.RacingPublishContents | src/modules/versions/versions.service.ts:40-61 | whatever runs between read and insert, a publish that goes through inserts the body it was called with |
| VersionEffects.WhoMayEditDrafts | src/modules/components/components.service.ts:272-314 | drafts are edited and published by their author alone, and only while they are drafts |
| VersionEffects.SavedContents | src/modules/components/components.service.ts:357-370 | a saved draft has the parts that were sent and keeps the others |
| VersionEffects.EveryRow | src/modules/versions/versions.service.ts:30-62 | for every step, what it makes of a stored version: edited by a draft save in flight, gone with its component, untouched otherwise |
| VersionEffects.NewRow | src/modules/versions/versions.service.ts:48-56 | where a new version can come from, and its contents |
| VersionEffects.EveryHead | src/modules/components/components.service.ts:293-314 | for every step, author, removal, draft flag and current version of a component |
| FeedServices.FeedService.ForUser | src/modules/feed/feed.service.ts:25-57 | cached page, or the query's, stored under the viewer's tag |
| FeedServices.FeedService.Trending | src/modules/feed/feed.service.ts:63-99 | the shared page, filtered for the viewer after the cache |
| FeedServices.FeedService.Block | src/modules/moderation/blocks.service.ts:31-92 | drops both feeds, even when the block was there already |
| FeedServices.FeedService.Unblock | src/modules/moderation/blocks.service.ts:94-98 | drops no feed |
| FeedServices.FeedService.Mute | src/modules/moderation/mutes.service.ts:19-48 | drops the muter's feed; a repeated mute returns first |
| FeedServices.FeedService.Unmute | src/modules/moderation/mutes.service.ts:50-53 | drops the muter's feed |
| FeedRuns.FeedRespectsWall | src/modules/feed/feed.service.ts:25-57 | in every reachable state the following feed, cached or not, shows nobody blocked either way and nobody muted |
| FeedRuns.FollowingExactly | src/modules/feed/feed.service.ts:31-51 | uncached, it holds every public post of a followed author who is not hidden, and nothing else |
| FeedRuns.PostFilterIsPerRow | src/modules/feed/feed.service.ts:82-98 | one query for the page filters as one `isBlockedEitherWay` per row would, in order |
| FeedRuns.FilterAfterTakeIsPrefix | src/modules/feed/feed.service.ts:75-98 | filtering after the cut is a prefix of filtering before it, and a full page if and only if no author in the cut is blocked |
| FeedRuns.TrendingHidesExactlyBlocked | src/modules/feed/feed.service.ts:80-98 | whatever the shared cache holds, exactly the rows of authors blocked now are hidden |
| FeedEffects.MuteLasts | src/modules/moderation/mutes.service.ts:19-48 | from a mute on, through any run without its lifting or the erasure of either, no feed of the muter shows the author, cached pages included |
| FeedEffects.BlockLasts | src/modules/moderation/blocks.service.ts:31-92 | from a block on, likewise, neither sees the other in either feed |
| FeedEffects.UnmuteRestores | src/modules/moderation/mutes.service.ts:50-53 | after an unmute the very next feed has every listed post of the author the viewer follows, if no block stands between them |
| FeedEffects.UnblockRestores | src/modules/moderation/blocks.service.ts:94-98 | after an unblock trending shows the author's rows at once, and the fresh following feed too where the follow still stands |
| FeedEffects.NextReadIsFresh | src/modules/feed/feed.service.ts:25-57 | in every reachable state the read after a mute, unmute, block or erasure is of the tables as they then are |
| FeedEffects.EveryPair | src/modules/moderation/mutes.service.ts:19-53 | for every step, the exact condition under which a mute, block or follow is there afterwards |
| FeedEffects.FollowingPage | src/modules/feed/feed.service.ts:31-51 | the fresh page is the first `limit` posts, in order, of followed authors without block or mute |
| FeedEffects.TrendingPage | src/modules/feed/feed.service.ts:66-79 | and trending the first `limit` public posts of the ranking |
| FeedEffects.PagesAreCached | src/modules/feed/feed.service.ts:25-79 | a page read from the tables answers from the cache for exactly 30 s |
| FeedEffects.PagesDoNotMix | src/modules/feed/feed.service.ts:26-65 | no two users' pages and no two page sizes share a cache key |
| NotificationServices.NotificationsService.Enqueue | src/modules/notifications/notifications.service.ts:69-99 | self-notifications dropped; queued with workers on, delivered in place and never failing with workers off |
| NotificationServices.NotificationsService.Deliver | src/modules/notifications/notifications.service.ts:105-129 | one row, unless a keyed one of the last minute is there |
| Notifications.RunKeeps | src/modules/notifications/notifications.service.ts:108-116 | rows with one recipient and key are pairwise at least 60 s apart, deletions and time included |
| Notifications.InboxBound | src/modules/notifications/notifications.service.ts:108-116 | at most W/60 s + 1 of them in any span W |
| Notifications.InboxBoundIsTight | src/modules/notifications/notifications.service.ts:113 | one delivery a minute is never dropped |
| Notifications.DeliveryShows | src/modules/notifications/notifications.service.ts:105-129 | nothing is dropped without a row of the last minute, and unkeyed deliveries never are |
| Notifications.DeliveredRow | src/modules/notifications/notifications.service.ts:105-129 | the row that is stored, column by column, and when none is |
| Notifications.ForgetExactly | src/modules/users/account-privacy.service.ts:162-185 | erasure takes the rows to the user and from the user and no others |
| Notifications.DelayedInsert | src/modules/notifications/notifications.service.ts:109-129 | an insert on an earlier check keeps the spacing if and only if a fresh check would pass |
| Notifications.OverlappingDeliveriesDuplicate | src/modules/notifications/notifications.service.ts:109-129 | two deliveries of one key that both pass the check on the same rows, inserts less than a minute apart: each would drop after the other, both insert, and the spacing is broken |
| Retries.RetriesInsertOnce | src/common/queue/queue.module.ts:44-46 | five attempts with 2 s doubling backoff insert at most one row, whatever fails, if and only if their processing takes under 30 s |
| Retries.DoneEndsIt | src/common/queue/queue.module.ts:44-46 | an attempt that ends well is the last, and inserts exactly when its own check finds nothing of the last minute |
| Retries.SlowRunDuplicates | src/common/queue/queue.module.ts:44-46 | with 30 s of processing or more, a schedule that inserts two |
| BackfillServices.EmbeddingsBackfillService.Run | src/modules/housekeeping/embeddings-backfill.service.ts:54-87 | takes a legal batch, oldest first, and delivers or queues every row of it |
| BackfillServices.EmbeddingsService.OldestPending | src/modules/housekeeping/embeddings-backfill.service.ts:61-75 | the fifty oldest pending rows, in order |
| BackfillServices.EmbeddingsService.Enqueue | src/common/embeddings/embeddings.service.ts:67-92 | disabled, inline with failures swallowed, or queued |
| BackfillServices.EmbeddingsService.Deliver | src/common/embeddings/embeddings.service.ts:104-153 | one vector written, unless the row is gone or the embedder fails |
| Backfill.BackfillDrains | src/modules/housekeeping/embeddings-backfill.service.ts:61-79 | with at most f < 50 failing, ceil(Q / (50 - f)) runs embed all Q healthy components, however ties are broken |
| Backfill.RunsDrain | src/modules/housekeeping/embeddings-backfill.service.ts:61-79 | each run takes 50 - f healthy ones off the list |
| Backfill.OldEnoughIsTaken | src/modules/housekeeping/embeddings-backfill.service.ts:71-72 | a pending component with fewer than fifty at least as old is in every batch |
| Backfill.PendingMeans | src/modules/housekeeping/embeddings-backfill.service.ts:61-70 | what is pending: public, there, and without an embedding or changed more than five seconds after its generation |
| Backfill.BatchMeans | src/modules/housekeeping/embeddings-backfill.service.ts:71-72 | a batch is fifty pending components, or all, none of them before an older one |
| Backfill.DeliveryEmbeds | src/common/embeddings/embeddings.service.ts:104-153 | a delivery dates one row and makes it wait again only after such a change |
| Backfill.StuckBehindFailures | src/modules/housekeeping/embeddings-backfill.service.ts:61-79 | fifty older failing components: no healthy one is ever embedded |
| BackfillTurns.ServedExactly | src/modules/housekeeping/embeddings-backfill.service.ts:61-79 | a healthy pending component is certain to be embedded within some number of runs if and only if b < 50 failing pending ones are at least as old; then floor(r / (50 - b)) + 1 runs do, r being the other healthy ones at least as old |
| SerializerServices.LocalOnnxEmbeddingProvider.Embed | src/common/embeddings/providers/local-onnx.provider.ts:72-86 | disabled calls are refused; others wait for the model with prefixed, clipped text |
| SerializerServices.LocalOnnxEmbeddingProvider.Resume | src/common/embeddings/providers/local-onnx.provider.ts:89-100 | joins behind the run in flight and becomes the run in flight |
| SerializerServices.LocalOnnxEmbeddingProvider.Start | src/common/embeddings/providers/local-onnx.provider.ts:89-90 | the chained run enters the pipeline |
| SerializerServices.LocalOnnxEmbeddingProvider.Complete | src/common/embeddings/providers/local-onnx.provider.ts:90-98 | a throw or a wrong length rejects, anything else resolves |
| Serializer.OneAtATimeInOrder | src/common/embeddings/providers/local-onnx.provider.ts:87-101 | over all interleavings a call past waiting has every call ahead of it settled: one in the pipeline, in joining order |
| Serializer.WaitsForExactlyThoseAhead | src/common/embeddings/providers/local-onnx.provider.ts:89-100 | a waiting call may start if and only if exactly the calls ahead of it are settled |
| Serializer.OwnResultOnly | src/common/embeddings/providers/local-onnx.provider.ts:89-101 | each caller has one link with its own text, settled if and only if its own run has ended, by what that run gave: no other call's result or failure shows, not even for the same text |
| Serializer.AlwaysOneEnabled | src/common/embeddings/providers/local-onnx.provider.ts:89-100 | no deadlock: while a call is unsettled exactly the first unsettled one can move |
| Serializer.ClipSettles | src/common/embeddings/providers/local-onnx.provider.ts:134-138 | clipped text fits; clipping again changes it if and only if the cut left a space at the end, and never a third time |
| Serializer.ClipKeeps | src/common/embeddings/providers/local-onnx.provider.ts:134-138 | what survives: the text without the white space around it, or its first `limit` characters |

## Left out

- HTTP controllers, DTO validation, JWT verification, storage uploads, logging, configuration and health checks.
- Real-time broadcasts, the reports queue, role and consent guards beyond the session's suspension decision.
- The ONNX model, pgvector, passage assembly and vector text: the embedder is a failing set or the outcome of each run.
- Unicode lower-casing and NFD in `slugify`: any function that leaves text of [a-z0-9-] alone.
- Racing slug allocations: uniqueness is proved for sequential runs. PostgreSQL aborts a transaction after a failed
  statement; the model does what the retry loop intends and tries the next candidate.
- `create` and `fork` invalidate inside their transaction, before it commits; here the invalidation follows it. No
  field a cached component promises depends on the order.
- Overlapping whole-row saves of one entity in runs (lost updates between two loads and two saves):
  `Versions.LateHeadSave` says what one does to version numbers and to the draft flag. That `save` writes back every
  loaded column that differs from the stored one is the ORM's behaviour.
- The audit log writes through its own repository rather than the transaction's manager; here a change and its entry
  commit together. Content removals' entries are not kept: only their reason gate is.
- Cached counters, current version and author details of a cached component: they may lag by the entry's 120 seconds.
- The cache under invalidations that fail: only the TTL bounds then hold, as `Staleness` shows for
  sessions and components.
- In the ledger, when a row is old enough to purge: any set of ids may be expired.
- Likes and favorites on components of erased users, shares, views and reports: no counter here depends on them.
- The admin promotion script, which keeps neither the session nor the admin floor.
- Trending and following pages in feeds include public drafts, as the queries do; nothing is claimed about drafts there.
- The promise chain covers `embed` only: `warmup` calls the pipeline directly and may overlap a chained run.
- BullMQ beyond attempts and backoff: the dedupe of jobs by id among retained ones.
- Marking notifications read, listings and exports.
- ThrottlerBounds.WindowBound: does not count requests let through on an empty MULTI reply, because failing open
  admits without counting: their number has no bound.
- CatalogServices.ComponentsService.Create: does not model version 1, tags and counters, because
  `VersionsServices` and `LedgerServices` do; the embedding job it enqueues is left out.
- CatalogServices.ComponentsService.Fork: does not model the refusal for a missing source version, because
  `Versions.ForkCopiesLatest` shows it cannot occur.
- LedgerServices.ComponentsService.Create: does not decide whether a slug is free (`named`), because `Catalog` does.
- LedgerServices.ComponentsService.Fork: does not decide visibility, version and slug (`visible`, `ready`), because
  `Catalog` and `Versions` do.
- LedgerServices.ComponentsService.AttachTags: does not model trimming, lower-casing and deduplicating of tag names,
  because tags are ids here.
- VersionsServices.VersionsService.Fork: does not decide visibility and blocks, because `Catalog` does.
- NotificationServices.NotificationsService.Enqueue: does not model the queue's dropping of a job whose id it still
  holds, because retention is the queue's own configuration; a dropped job only means fewer deliveries.
- BackfillServices.EmbeddingsService.Enqueue: does not model the job id's dedupe and the delay, for the same reason.
