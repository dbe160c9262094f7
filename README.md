# Instana configuration migration — a verified model

The repository copies Instana configuration objects — custom dashboards,
custom events, alert channels, alert configurations and website
configurations — from a source backend to a target backend. Each migrator
lists the source, lists the target, decides per item whether to create,
update or skip it, and reports a tally. This project models the decision
core of those migrators, the token-bucket rate limiter, the layered
configuration and the command-line entry point, and proves properties
about them.

Shape of the model:

- `json.dfy` (module `Json`): a JSON value datatype and the Python
  semantics the migrators rely on: truthiness, `dict.get`, `in`,
  subscripting, `< 1`, `lower`, `strip`, `str()`, hashing and dict
  comprehensions.
  It also holds `JsonDict`, a class for dicts changed in place, and
  `Tally`, the run summary and `list.count`.
- `migration.dfy` (module `Migration`): what the sequential migrators
  share. This is the reply of a write (`IdReturned`), the truthy name list,
  the first-match lookup and the counter effects. It also holds the generic
  duplicate-by-name loop `RunLoop`, which stops on cancel and escapes on an
  exception.
- `prompts.dfy`: the console menus. The typed lines are a sequence; running
  out of them is the EOFError `input()` raises.
- `users.dfy`, `dashboards_prepare.dfy`, `dashboards_async.dfy`,
  `dashboards_sync.dfy`: the dashboard migrators.
- `rate_limiter.dfy`: the limiter as a class over a `Bucket`. The clock is a
  sequence of readings. A bucket's credit, its tokens less the rate times
  its last reading, never rises on a refill and drops by one per grant. It
  yields the bound of at most `rate * T + rate` grants over `T` seconds.
- `config.dfy` (module `AppConfig`): the `Config` class, whose settings
  are overlaid by the file, command-line and environment layers.
- `alert_channels.dfy`, `alert_configs.dfy`, `custom_events.dfy`,
  `website_configs.dfy`: the other migrators.
- `cli.dfy`: `main`. This covers the argument list handed to
  `Config.from_args`, the dispatch and the exit status.
- `scenarios.dfy`: a concrete run from the test suite.

Loops that the source runs — the per-item migration loops, the prompt loop,
the user mapping, the limiter's wait loop, the preparation loop — are
methods with loop invariants. Each is proved equal to a function, and the
lemmas state their properties about that function. Dicts the source mutates
(`del dashboard['id']`, the preparation rewrite) are `JsonDict` objects.
Their methods state the new contents. HTTP, the console and files are
inputs: a write API is a total function from the request to its reply, a
listing is an `Option` (None when the request failed), and interactivity is
a flag plus the lines typed.

Python hashes a value before a dict or a set stores it or looks it up, and
a list or dict cannot be hashed: the `TypeError` that follows is part of the
model wherever a listed value becomes a key or is tested against one (the
title, e-mail, name and id indexes, and the membership tests against them).
A JSON value is hashable exactly when it is not an array or an object
(`Json.Hashable`).

Where the repository's documentation and the code disagree, the model
follows the code:

- In skip mode, the async dashboard migrator's smart filter drops known
  titles before the details are fetched. Those dashboards appear neither in
  `source` nor in `skipped` (`DashboardsAsync.SkipModeDropsKnownTitles`).
- Cancelling at the async strategy prompt is `sys.exit(0)`, not an empty
  tally (`DashboardsAsync.CancelExitsZero`).
- The synchronous update lookups (`_update_dashboard`, `_update_channel`,
  `_update_event`) take the first target with the same title or name. They
  fail when that target has no `id`, even if a later one has.
- Website configurations and alert configurations pick the file source
  only when `events_source` is exactly "file"
  (alert-configs/migrator.py:29 and :71). Custom events and alert channels
  lowercase it first. For alert configurations the model folds this choice
  into the listing `ConfigIo.sourceConfigs` it is given.
- A failed alert-configuration update is counted nowhere and not
  re-created. A failed channel or event update falls through to a create.
- `main` exits 1 after an events run that returned early. The early summary
  has no `updated` key, so the exit test raises KeyError, which the general
  handler turns into exit status 1 (`Cli.ExitZeroIff`).

## Model

| member | source | states |
|---|---|---|
| Users.MapUsers | configuration-migration/custom-dashboards/migrator_async.py:384-396 | the loop over the source users builds exactly the user map `UserMap` or raises its TypeError: the target e-mail index, then one entry per source user carrying both `email` and `id` whose e-mail is indexed |
| Users.UserMapRaises | configuration-migration/custom-dashboards/migrator_async.py:384-396 | with both lists non-empty, `_map_users` raises TypeError exactly when a target user with both fields has a list or dict e-mail, or a source user with both fields has one, or has a list or dict id and shares its e-mail with a target user |
| Users.UserMapKeys | configuration-migration/custom-dashboards/migrator_async.py:384-396 | when the map is built, a source id is a key of it exactly when a source user with that id and an e-mail shares the e-mail with a target user that has both `email` and `id` |
| Users.UserMapMatchesByEmail | configuration-migration/custom-dashboards/migrator_async.py:388-395 | when the map is built, a source user whose e-mail matches a target user maps to that target's id when that target is the last with the e-mail (later target users overwrite the index) and no later source user has the same id |
| DashboardPrepare.WidgetProblemsNone | configuration-migration/custom-dashboards/migrator_async.py:213-222 | a widget produces no missing-field list exactly when it has a truthy `id`, `width` and `height` of at least 1, and a `config` key |
| DashboardPrepare.CheckWidgetListAccepts | configuration-migration/custom-dashboards/migrator_async.py:213-228 | the widget loop lets the dashboard through exactly when every widget is complete |
| DashboardPrepare.CheckWidgetListRefusal | configuration-migration/custom-dashboards/migrator_async.py:213-228 | a refusal by the widget loop names the first incomplete widget: its index, its non-empty list of missing fields, and every earlier widget is complete |
| DashboardPrepare.PrepareDashboard | configuration-migration/custom-dashboards/migrator_async.py:172-235 | the verdict says whether the dashboard is kept, refused (and why) or raises, and the dict is rewritten in place whatever the verdict, so a titled dashboard refused for its widgets has already lost its owner fields; the user map and target users play no part |
| DashboardPrepare.AcceptedIff | configuration-migration/custom-dashboards/migrator_async.py:183-235 | a dashboard is kept exactly when its title is truthy, `widgets` is a non-empty list, and every widget is complete |
| DashboardPrepare.KeyProblems | configuration-migration/custom-dashboards/migrator_async.py:214-222 | a dict key walked as a widget is a string: it raises exactly when it contains "id" or "height", and otherwise lacks `id`, `width`, `height`, and `config` unless the key contains "config" |
| DashboardPrepare.DictWidgetsVerdict | configuration-migration/custom-dashboards/migrator_async.py:214-228 | in the key order the model fixes (keys that refuse first), a non-empty dict of widgets is never kept: it is refused at widget 0, naming the fields one of its keys lacks, exactly when some key contains neither "id" nor "height", and raises exactly when every key contains one of them |
| DashboardPrepare.DictWidgetsOrderFree | configuration-migration/custom-dashboards/migrator_async.py:208-228 | whatever the key order: a non-empty dict of widgets is never kept; when every key contains neither "id" nor "height" it is refused at widget 0 naming the fields some key lacks; when every key contains one of them it raises; a one-key dict gets exactly that key's verdict |
| DashboardPrepare.PlainKeyDictRefused | configuration-migration/custom-dashboards/migrator_async.py:214-228 | the widget check on `widgets = {"a": 1}` refuses at widget 0 for lacking `id`, `width`, `height` and `config` |
| DashboardPrepare.PreparedPayload | configuration-migration/custom-dashboards/migrator_async.py:189-203 | once titled, the payload loses `owner` and `ownerId`, gets the global read-write `accessRules`, and keeps every other key and value |
| DashboardPrepare.UntitledUntouched | configuration-migration/custom-dashboards/migrator_async.py:183-187 | a dashboard without a truthy title is refused for that reason and left unchanged |
| DashboardPrepare.FirstBadWidgetReported | configuration-migration/custom-dashboards/migrator_async.py:213-228 | when the first incomplete widget has an id but no `width`, the refusal points at that widget and lists `width` first |
| DashboardsAsync.PromptForOverrideStrategy | configuration-migration/custom-dashboards/migrator_async.py:129-170 | the strategy question is answered as the strategy function says: from `on_duplicate`, the terminal check, or the first recognised typed answer |
| DashboardsAsync.StrategyWithoutPrompt | configuration-migration/custom-dashboards/migrator_async.py:135-146 | `on_duplicate` "update" overrides and "skip" keeps without asking; any other setting keeps existing dashboards when standard input is not a terminal |
| DashboardsAsync.StrategyFromTyped | configuration-migration/custom-dashboards/migrator_async.py:157-170 | the first recognised answer decides, whatever invalid lines came before it, and it overrides exactly when it lowercases to "o" or "override" |
| DashboardsAsync.StrategyInputExhausted | configuration-migration/custom-dashboards/migrator_async.py:157-158 | when no typed line is a recognised answer the prompt ends with EOFError |
| DashboardsAsync.ExistingDashboardsMeaning | configuration-migration/custom-dashboards/migrator_async.py:70 | building the map raises TypeError exactly when a target dashboard with both `title` and `id` has a list or dict title; otherwise a title is a key exactly when some target dashboard has both fields with that title, and it maps to the id of the last such dashboard |
| DashboardsAsync.NotExisting | configuration-migration/custom-dashboards/migrator_async.py:260-266 | skip-mode filtering raises TypeError exactly when some summary's `title` is a list or dict; otherwise it keeps exactly the summaries whose `title` is not a known target title, and leaves nothing exactly when every title is known |
| DashboardsAsync.SummaryIds | configuration-migration/custom-dashboards/migrator_async.py:280 | the ids to fetch exist exactly when every summary has an `id` (otherwise the KeyError fails the fetch), and they are those ids in order |
| DashboardsAsync.GateFromLimiter | configuration-migration/custom-dashboards/migrator_async.py:317-318 | the request gate agrees with the rate limiter built from the configured rate: rate 0 raises on the first acquire, a negative rate never grants, a positive rate grants within two clock readings |
| DashboardsAsync.Successful | configuration-migration/custom-dashboards/migrator_async.py:289-297 | the fetched details are exactly the bodies of the detail requests that succeeded, never more than the ids asked for |
| DashboardsAsync.SmartFilterMeaning | configuration-migration/custom-dashboards/migrator_async.py:259-274 | in skip mode with known titles the smart filter `SmartFilter` keeps for fetching exactly the summaries with an unknown title, and a list or dict title among them fails the whole source fetch; in override mode or with no known titles all of them are fetched |
| DashboardsAsync.NothingToFilter | configuration-migration/custom-dashboards/migrator_async.py:270-300 | with no known target titles and an open gate every summary's details are requested and the successful ones returned |
| DashboardsAsync.UpdateExisting | configuration-migration/custom-dashboards/migrator_async.py:532-558 | an update sends one PUT to the given id with the payload minus `id`, reports updated exactly when that PUT is accepted, and never reports created |
| DashboardsAsync.UpdateExistingDashboard | configuration-migration/custom-dashboards/migrator_async.py:544-546 | the dashboard dict loses its `id` in place and the result is the update's |
| DashboardsAsync.FindIdByTitle | configuration-migration/custom-dashboards/migrator_async.py:507-530 | the conflict lookup returns the id of the first listed dashboard with that title and an `id`, and nothing when the listing fails or no dashboard matches |
| DashboardsAsync.VerifiedTag | configuration-migration/custom-dashboards/migrator_async.py:461-481 | after a create, the dashboard counts as skipped exactly when the read-back returns 200 with a body lacking a truthy `title` or `widgets`; otherwise created, never updated |
| DashboardsAsync.CreateOrUpdateDashboard | configuration-migration/custom-dashboards/migrator_async.py:420-505 | the coroutine's result is the create-or-update function `CreateOrUpdate`'s, and the dashboard dict loses its `id` exactly when a PUT was sent |
| DashboardsAsync.KnownTitleSkipped | configuration-migration/custom-dashboards/migrator_async.py:435-442 | in skip mode a dashboard whose title is already in the target is skipped without any request |
| DashboardsAsync.KnownTitleUpdated | configuration-migration/custom-dashboards/migrator_async.py:435-439 | in override mode a known title is PUT to the known id without its `id`, and is updated exactly when the PUT succeeds |
| DashboardsAsync.CreatedIff | configuration-migration/custom-dashboards/migrator_async.py:432-484 | a dashboard is created exactly when its title (or 'N/A') hashes and is unknown, the rate limiter does not raise, the POST replies with an `id`, and the read-back does not flag it |
| DashboardsAsync.UnhashableTitleSkipped | configuration-migration/custom-dashboards/migrator_async.py:408-435 | a dashboard whose title is a list or dict raises at the known-title test, which `gather` turns into skipped, with no request sent, in either mode |
| DashboardsAsync.ConflictUpdatesFirstMatch | configuration-migration/custom-dashboards/migrator_async.py:486-493 | on a 409 in override mode a dashboard with a hashable title is POSTed, the target listed, and the payload minus `id` PUT to the first listed dashboard with the same title |
| DashboardsAsync.PayloadsOfTask | configuration-migration/custom-dashboards/migrator_async.py:449-453 | every POST carries the prepared dashboard as it is, and every PUT carries it without `id` |
| DashboardsAsync.PrepareAll | configuration-migration/custom-dashboards/migrator_async.py:101-109 | preparing the source keeps and refuses dashboards that together number the source, and every kept payload has no owner fields and the global read-write access rule |
| DashboardsAsync.RaisedPrefix | configuration-migration/custom-dashboards/migrator_async.py:104-109 | once preparing a dashboard raises, the later dashboards do not change the outcome |
| DashboardsAsync.PrepareDashboards | configuration-migration/custom-dashboards/migrator_async.py:101-109 | the preparation loop computes exactly the kept payloads and refusal count of the preparation function |
| DashboardsAsync.Tags | configuration-migration/custom-dashboards/migrator_async.py:410-418 | the coroutine results give one tag per prepared dashboard |
| DashboardsAsync.MigrateDashboards | configuration-migration/custom-dashboards/migrator_async.py:398-418 | the coroutine loop returns the tags of the per-dashboard create-or-update, in order |
| DashboardsAsync.TagCounts | configuration-migration/custom-dashboards/migrator_async.py:114-116 | created, updated and skipped tags together number all tags |
| DashboardsAsync.MigrateRun | configuration-migration/custom-dashboards/migrator_async.py:47-127 | a finished run reports exactly the keys source, migrated, updated and skipped |
| DashboardsAsync.RunWithStrategy | configuration-migration/custom-dashboards/migrator_async.py:61-127 | the run after the strategy question finishes with exactly the four summary keys |
| DashboardsAsync.RunOnSource | configuration-migration/custom-dashboards/migrator_async.py:79-127 | the run from the fetched source on finishes with exactly the four summary keys |
| DashboardsAsync.MigrateAsync | configuration-migration/custom-dashboards/migrator_async.py:47-127 | the method computes exactly the run's outcome |
| DashboardsAsync.MigrateWithStrategy | configuration-migration/custom-dashboards/migrator_async.py:61-127 | the method computes exactly the outcome of the run after the strategy question |
| DashboardsAsync.MigrateSource | configuration-migration/custom-dashboards/migrator_async.py:79-127 | the method computes exactly the outcome of the run from the fetched source on |
| DashboardsAsync.TallyAddsUp | configuration-migration/custom-dashboards/migrator_async.py:101-127 | once both user lists are read, migrated, updated and skipped add up to the source count |
| DashboardsAsync.EarlyReturns | configuration-migration/custom-dashboards/migrator_async.py:76-91 | an unreadable source gives all zeros once the known-title map is built (a list or dict target title crashes first), unreadable source users give all zeros, and unreadable target users give zero migrated, updated and skipped |
| DashboardsAsync.UnhashableKeysCrash | configuration-migration/custom-dashboards/migrator_async.py:61-98 | a list or dict title among the target dashboards ends the run with TypeError, and so does a list or dict e-mail or id met while mapping users once both user lists are read |
| DashboardsAsync.SkipModeDropsKnownTitles | configuration-migration/custom-dashboards/migrator_async.py:259-278 | in skip mode, when every source title is already in the target, the run reports all zeros (the filtered dashboards are neither counted in source nor skipped), unless mapping the users raises TypeError, which ends it |
| DashboardsAsync.CancelExitsZero | configuration-migration/custom-dashboards/migrator_async.py:166-168 | a cancel answer at the strategy prompt ends the program with exit status 0 |
| DashboardsAsync.ZeroRateMigratesNothing | configuration-migration/custom-dashboards/migrator_async.py:284-318 | with a rate limit of 0 every detail fetch raises at its first `acquire` and `gather` drops it, so the source is empty and nothing is migrated or updated |
| DashboardsAsync.DivergesOnlyWhenBlocked | configuration-migration/custom-dashboards/migrator_async.py:317-318 | a run hangs only when the gate blocks (semaphore 0 or a negative rate) and there is at least one source summary to fetch |
| DashboardsSync.UpdateDashboard | configuration-migration/custom-dashboards/migrator.py:410-460 | the update's result is `UpdateResult`'s: the PUT to the first target dashboard with the title, which succeeds exactly when the reply is a JSON object with an `id` and raises TypeError on a string or list reply that contains `id`; and the dashboard dict loses its `id` exactly when such a target with an `id` was found |
| DashboardsSync.DuplicateChoice | configuration-migration/custom-dashboards/migrator.py:249-282 | the duplicate prompt consumes no more typed lines than there are |
| DashboardsSync.PromptForDuplicateDashboard | configuration-migration/custom-dashboards/migrator.py:249-282 | the prompt loop returns exactly the duplicate-choice function's answer and the number of lines it read |
| DashboardsSync.DuplicateChoiceMeaning | configuration-migration/custom-dashboards/migrator.py:258-282 | a setting other than "ask" is returned as it is; "ask" without a terminal gives "skip"; "ask" at a terminal gives the word of the first recognised answer, after reading exactly that many lines |
| DashboardsSync.MigrateItem | configuration-migration/custom-dashboards/migrator.py:119-212 | one loop iteration, which changes the dashboard dict in place, has exactly the outcome of the per-dashboard step function `SyncItem`, whose writes are `UpdateResult` and `CreateResult` |
| DashboardsSync.Bump | configuration-migration/custom-dashboards/migrator.py:179-212 | each counted dashboard adds exactly one to the migrated, updated and skipped total |
| DashboardsSync.SyncRun | configuration-migration/custom-dashboards/migrator.py:70-223 | a finished synchronous run reports exactly the keys source, migrated, updated and skipped |
| DashboardsSync.MigrateLoop | configuration-migration/custom-dashboards/migrator.py:113-212 | the dashboard loop ends with exactly the counters and cancel flag of the loop function `SyncLoop` over the per-dashboard step `SyncItem` from zero counters |
| DashboardsSync.MigrateSync | configuration-migration/custom-dashboards/migrator.py:70-223 | the method computes exactly the synchronous run's outcome |
| DashboardsSync.Migrate | configuration-migration/custom-dashboards/migrator.py:57-68 | with the async client available the migration is the async migrator's (`DashboardsAsync.AsyncMigrate`), otherwise the synchronous one |
| DashboardsSync.SyncLoopCounts | configuration-migration/custom-dashboards/migrator.py:118-212 | the loop never decreases a counter; without a cancel it counts every dashboard exactly once, and a cancel leaves the total short of the number of dashboards |
| DashboardsSync.SyncLoopStep | configuration-migration/custom-dashboards/migrator.py:118-212 | after a counted dashboard the loop carries on with the rest of the dashboards, the remaining typed lines and the bumped counters |
| DashboardsSync.OneCountedItem | configuration-migration/custom-dashboards/migrator.py:118-212 | a single counted dashboard ends the loop uncancelled with its outcome added |
| DashboardsSync.NoCancelWithoutPrompt | configuration-migration/custom-dashboards/migrator.py:183-203 | when the settings cannot lead to a cancel (no "ask" at a terminal), the loop never ends cancelled |
| DashboardsSync.RunIsLoop | configuration-migration/custom-dashboards/migrator.py:82-223 | with everything readable, the run ends with the TypeError of the user map, or reports the source count and the loop's counters over the source dashboards |
| DashboardsSync.SyncTallyAddsUp | configuration-migration/custom-dashboards/migrator.py:113-223 | migrated, updated and skipped never exceed the source count, and equal it when the run reached the loop and no cancel is possible |
| DashboardsSync.SyncEarlyReturns | configuration-migration/custom-dashboards/migrator.py:88-102 | an unreadable target listing or unreadable target users report the source count with zeros; unreadable source users report all zeros |
| DashboardsSync.DuplicateHandling | configuration-migration/custom-dashboards/migrator.py:174-212 | an accepted dashboard with an unknown title is created; a known title is skipped under "skip" and updated under "update"; it is counted updated only when its title is known and a target with that title has an id |
| DashboardsSync.RefusedIsSkipped | configuration-migration/custom-dashboards/migrator.py:119-172 | a dashboard refused by preparation (no title, no widgets, an incomplete widget) is counted skipped and reads no typed line |
| RateLimit.Refill | configuration-migration/custom-dashboards/rate_limiter.py:22-32 | a refill stamps the reading, keeps the rate, never exceeds `rate` tokens, and leaves either the cap or the old tokens plus elapsed time times the rate |
| RateLimit.RefillValid | configuration-migration/custom-dashboards/rate_limiter.py:22-32 | a refill at a later reading keeps the bucket well formed, and with a non-negative rate never loses tokens |
| RateLimit.WaitIsEnough | configuration-migration/custom-dashboards/rate_limiter.py:43-47 | sleeping the computed wait (or longer) and refilling gives at least one token when the rate is at least 1 |
| RateLimit.Wait | configuration-migration/custom-dashboards/rate_limiter.py:43-47 | the `while self.tokens < 1` loop exits with at least one token in the bucket, using between the readings already taken and all readings offered, and never changes the rate |
| RateLimit.WaitLoop | configuration-migration/custom-dashboards/rate_limiter.py:43-50 | a grant leaves exactly one token fewer than the bucket held when the wait ended, which was at least one, so never a negative count; any other outcome takes nothing |
| RateLimit.AcquireResult | configuration-migration/custom-dashboards/rate_limiter.py:34-50 | a granted acquire reads the clock at least once and no more often than readings are offered, keeps the rate and leaves a non-negative count |
| RateLimit.AcquireMany | configuration-migration/custom-dashboards/rate_limiter.py:52-59 | acquiring several tokens never uses more clock readings than offered |
| RateLimit.TakeCredit | configuration-migration/custom-dashboards/rate_limiter.py:49-50 | taking a token lowers the bucket's credit (tokens less the rate times the last reading) by exactly one |
| RateLimit.RefillCredit | configuration-migration/custom-dashboards/rate_limiter.py:22-32 | a refill never adds more than the elapsed time times the rate, so it never raises the credit |
| RateLimit.WaitCredit | configuration-migration/custom-dashboards/rate_limiter.py:43-47 | waiting only refills, so it never raises the credit |
| RateLimit.AcquireTakesOne | configuration-migration/custom-dashboards/rate_limiter.py:34-50 | a granted acquire removes exactly one token from the bucket its wait ended with, so its credit drops by at least one |
| RateLimit.AcquireManyCredit | configuration-migration/custom-dashboards/rate_limiter.py:52-59 | `count` granted acquires lower the credit by at least `count` and keep the rate |
| RateLimit.CreditDrop | configuration-migration/custom-dashboards/rate_limiter.py:22-32 | a drop of at least `count` in credit between two buckets of the same rate means `count` is at most their drop in tokens plus the rate times the time between their readings (`PaidFor`) |
| RateLimit.GrantsBoundedByTime | configuration-migration/custom-dashboards/rate_limiter.py:52-59 | `count` granted acquires take at most the tokens held at the start, less those left, plus the rate times the time the series spans (`PaidFor`) |
| RateLimit.AcquireManyValid | configuration-migration/custom-dashboards/rate_limiter.py:52-59 | a series of acquires keeps the bucket well formed and its rate unchanged |
| RateLimit.PaidForWithinWindow | configuration-migration/custom-dashboards/rate_limiter.py:11-32 | tokens paid for between two well-formed buckets of the same non-negative rate are at most the capacity plus the rate times the time between them (`WithinWindow`) |
| RateLimit.GrantsWithinWindow | configuration-migration/custom-dashboards/rate_limiter.py:52-59 | over a window of `T` seconds a well-formed limiter with a non-negative rate grants at most `rate * T` tokens plus its capacity `rate` (`WithinWindow`) |
| RateLimit.AcquireManyStep | configuration-migration/custom-dashboards/rate_limiter.py:52-59 | a series of acquires ends with its first acquire unless that one is granted, and otherwise goes on from the bucket and readings that acquire left |
| RateLimit.AfterAfter | configuration-migration/custom-dashboards/rate_limiter.py:52-59 | offsetting the readings of an acquisition twice is offsetting by the sum |
| RateLimit.WaitLoopValid | configuration-migration/custom-dashboards/rate_limiter.py:43-47 | the wait loop keeps the bucket well formed and its rate unchanged |
| RateLimit.AcquireValid | configuration-migration/custom-dashboards/rate_limiter.py:34-50 | an acquire keeps the bucket well formed (tokens at most the rate, readings non-decreasing) and its rate unchanged |
| RateLimit.OneWaitSuffices | configuration-migration/custom-dashboards/rate_limiter.py:34-50 | with a rate of at least 1 an acquire is granted after at most one sleep, so within two readings |
| RateLimit.ZeroRateRaises | configuration-migration/custom-dashboards/rate_limiter.py:43-45 | with a rate of 0 a well-formed bucket never holds a token, so the first acquire divides by zero |
| RateLimit.NegativeRateWaitsForever | configuration-migration/custom-dashboards/rate_limiter.py:43-47 | with a negative rate the wait loop never reaches one token, however many readings it gets |
| RateLimit.NegativeRateNeverGrants | configuration-migration/custom-dashboards/rate_limiter.py:34-50 | with a negative rate an acquire is never granted |
| RateLimit.BurstWithoutWaiting | configuration-migration/custom-dashboards/rate_limiter.py:52-59 | with at least `count` tokens in the bucket, `count` acquires are granted without sleeping, one reading each |
| RateLimit.ManyAcquiresSucceed | configuration-migration/custom-dashboards/rate_limiter.py:52-59 | with a rate of at least 1, `count` acquires are all granted within two readings each |
| RateLimit.RateLimiter.constructor | configuration-migration/custom-dashboards/rate_limiter.py:11-20 | a new limiter starts with a full bucket of `rate` tokens stamped with the construction reading, and is well formed |
| RateLimit.RateLimiter.RefillTokens | configuration-migration/custom-dashboards/rate_limiter.py:22-32 | the limiter's state becomes the refill of its old state at the reading |
| RateLimit.RateLimiter.Acquire | configuration-migration/custom-dashboards/rate_limiter.py:34-50 | the method's outcome and new state are exactly the acquire function's on the old state |
| RateLimit.RateLimiter.AcquireMultiple | configuration-migration/custom-dashboards/rate_limiter.py:52-59 | the method's outcome and new state are exactly those of `count` acquires in a row |
| AppConfig.AllDigitsGroups | configuration-migration/config.py:214-220 | a plain run of digits is a well-formed tail of a decimal literal, so every digit string `int()` sees is accepted |
| AppConfig.ParseInt | configuration-migration/config.py:214-220 | `int()` on text with ASCII digits succeeds only on a decimal literal, possibly signed and surrounded by whitespace, and then gives its value or its negation |
| AppConfig.DigitCharIsDigit | configuration-migration/config.py:214-220 | the character for a decimal digit is a digit and has that digit's value |
| AppConfig.NatToDecimalValue | configuration-migration/config.py:214-220 | the decimal text of a natural number is all digits and denotes that number |
| AppConfig.StripDigits | configuration-migration/config.py:214-220 | surrounding-blank stripping leaves a digit string with an optional leading minus alone |
| AppConfig.SignedDigits | configuration-migration/config.py:214-220 | an optional minus in front of digits is left alone by stripping and split into its sign and digits |
| AppConfig.ParseIntOfLiteral | configuration-migration/config.py:214-220 | `int()` of digits with an optional minus is their value, negated when the minus is there |
| AppConfig.ParseIntRoundTrip | configuration-migration/config.py:214-220 | `int(str(n)) == n` for every integer |
| AppConfig.BooleanState | configuration-migration/config.py:175 | `getboolean` gives true exactly for 1, yes, true, on and false exactly for 0, no, false, off, in any case; anything else raises |
| AppConfig.ValidationError | configuration-migration/config.py:222-235 | validation passes exactly when the four connection settings are non-empty, and otherwise names the first missing one, in the order source token, source URL, target token, target URL |
| AppConfig.Headers | configuration-migration/config.py:237-257 | the request headers hold exactly an authorisation and a content-type header |
| AppConfig.HeadersCarryToken | configuration-migration/config.py:243-246 | the authorisation header carries exactly the token after `apiToken ` |
| AppConfig.SourceHeaders | configuration-migration/config.py:237-246 | the source request headers carry the source token |
| AppConfig.TargetHeaders | configuration-migration/config.py:248-257 | the target request headers carry the target token |
| AppConfig.FileVerifySsl | configuration-migration/config.py:173-175 | a readable file sets `verify_ssl` exactly when its general section has the key, to what `getboolean` reads |
| AppConfig.SourceTokenPrecedence | configuration-migration/config.py:110-147 | the source token is the environment's if set, else a non-empty command-line value, else the file's, else empty |
| AppConfig.VerifySslPrecedence | configuration-migration/config.py:110-147 | certificate checking follows the environment (anything but "false") if set, else is off with `--no-verify-ssl`, else follows the file, else is on |
| AppConfig.RateLimitPrecedence | configuration-migration/config.py:110-147 | the rate limit is the environment's integer if set, else a non-zero command-line value, else 50 when no file is named |
| AppConfig.FalsyCliKeepsEarlier | configuration-migration/config.py:116-142 | command-line values that are absent, empty or zero change none of the settings |
| AppConfig.EmptyEnvKeepsEarlier | configuration-migration/config.py:193-220 | an environment with no `EVENTS_MIGRATOR_` variable changes nothing |
| AppConfig.FileLayerFacts | configuration-migration/config.py:112-114 | naming a configuration file that does not exist raises, and an empty file changes nothing |
| AppConfig.Config.constructor | configuration-migration/config.py:12-28 | a new configuration holds the documented defaults |
| AppConfig.Config.Apply | configuration-migration/config.py:110-147 | applying a layer overlays exactly the settings it names |
| AppConfig.Config.LoadFromFile | configuration-migration/config.py:149-191 | a missing file raises and changes nothing; otherwise the load fails exactly when a value does not convert, and succeeds with the file's settings (`FileOverrides`) overlaid |
| AppConfig.Config.ApplyCli | configuration-migration/config.py:116-142 | the command-line layer overlays its truthy values (`CliOverrides`) |
| AppConfig.Config.LoadFromEnv | configuration-migration/config.py:193-220 | the environment load fails exactly when an integer variable does not convert, and otherwise overlays the variables that are set (`EnvOverrides`) |
| AppConfig.FromArgs | configuration-migration/config.py:31-147 | building the configuration from parsed arguments fails exactly when the layering raises, and otherwise yields the file, command-line and environment layers over the defaults |
| AlertChannels.KindDefaults | configuration-migration/alert-channels/migrator.py:122-208 | the per-kind defaults never touch `rbacTags` or `kind`, and an unknown kind gets none |
| AlertChannels.FormatChannel | configuration-migration/alert-channels/migrator.py:103-210 | the API payload keeps every field but `rbacTags` unchanged and adds exactly the missing defaults of the channel's kind |
| AlertChannels.FormatIdempotent | configuration-migration/alert-channels/migrator.py:103-210 | formatting an already formatted channel changes nothing |
| AlertChannels.UnknownKindOnlyDropsRbacTags | configuration-migration/alert-channels/migrator.py:115-120 | a channel of an unknown kind only loses `rbacTags` |
| AlertChannels.UpdateChannel | configuration-migration/alert-channels/migrator.py:346-394 | the update's result is `UpdateResult`'s: the PUT to the first target channel with the name, which succeeds exactly when the reply is a JSON object with an `id` and raises TypeError on a string or list reply that contains `id` |
| AlertChannels.UpdateWithoutMatch | configuration-migration/alert-channels/migrator.py:359-367 | with no target channel of that name the update fails without a request |
| AlertChannels.UpdateGoesToFirstMatch | configuration-migration/alert-channels/migrator.py:364-390 | the update PUTs the formatted channel to the id of the first target channel with the name, and succeeds exactly when the reply is a JSON object with an `id`; a string or list reply that contains `id` raises TypeError |
| AlertChannels.MigrateChannel | configuration-migration/alert-channels/migrator.py:62-91 | one loop iteration has exactly the outcome of the per-channel step function `ChannelItem`, whose writes are `UpdateResult` and `CreateResult` |
| AlertChannels.ChannelRun | configuration-migration/alert-channels/migrator.py:31-101 | a finished run reports exactly the keys source, migrated, updated and skipped |
| AlertChannels.MigrateLoop | configuration-migration/alert-channels/migrator.py:55-91 | the channel loop ends with exactly the counters and cancel flag of the generic loop `Migration.RunLoop` over the per-channel step `ChannelItem` |
| AlertChannels.MigrateChannels | configuration-migration/alert-channels/migrator.py:31-101 | the method computes exactly the run's outcome |
| AlertChannels.RunIsLoop | configuration-migration/alert-channels/migrator.py:40-101 | with both listings read, the run reports the source count and the loop's counters |
| AlertChannels.ChannelEarlyReturns | configuration-migration/alert-channels/migrator.py:44-50 | an unreadable source gives all zeros, and an unreadable target gives the source count with zeros |
| AlertChannels.ChannelTallyBounded | configuration-migration/alert-channels/migrator.py:55-101 | migrated, updated and skipped never exceed the source count |
| AlertChannels.ChannelOutcomes | configuration-migration/alert-channels/migrator.py:62-91 | a nameless channel is not counted; a new name is created; for a known name the first recognised answer decides: skip counts skipped, cancel stops the loop, and an update that fails falls through to a create |
| AlertChannels.UpdatedMeansFound | configuration-migration/alert-channels/migrator.py:71-82 | a channel is counted updated only when its name is in the target, the answer was update, a target channel with the name exists and the PUT returned a JSON object with an `id` |
| AlertConfigs.FormatConfig | configuration-migration/alert-configs/migrator.py:160-202 | formatting raises exactly when `id` or `alertName` is missing, naming `id` first |
| AlertConfigs.FormattedKeys | configuration-migration/alert-configs/migrator.py:160-202 | a formatted configuration has exactly the source keys minus the read-only ones, plus the five defaulted keys |
| AlertConfigs.ReadOnlyNeverSent | configuration-migration/alert-configs/migrator.py:163-167 | no read-only field (`lastUpdated`, `invalid`, `alertChannelNames`, `applicationNames`) is ever sent |
| AlertConfigs.FormattedKeeps | configuration-migration/alert-configs/migrator.py:160-202 | every other source field is sent with its value unchanged |
| AlertConfigs.WithDefaultsAdds | configuration-migration/alert-configs/migrator.py:176-200 | each missing defaulted key gets its documented default: the filter skeleton, two empty lists, 0 and false |
| AlertConfigs.FormattedDefaults | configuration-migration/alert-configs/migrator.py:176-200 | a defaulted key missing from the source is sent with its default |
| AlertConfigs.DefaultsNotReadOnly | configuration-migration/alert-configs/migrator.py:163-200 | no defaulted key is a read-only key, so defaults survive the stripping |
| AlertConfigs.WithDefaultsComplete | configuration-migration/alert-configs/migrator.py:176-200 | defaulting a configuration that has every defaulted key changes nothing |
| AlertConfigs.StripNothing | configuration-migration/alert-configs/migrator.py:165-167 | stripping a configuration with no read-only field changes nothing |
| AlertConfigs.FormatIdempotent | configuration-migration/alert-configs/migrator.py:160-202 | formatting a formatted configuration gives it back unchanged |
| AlertConfigs.StripReadOnly | configuration-migration/alert-configs/migrator.py:165-167 | the stripping loop removes exactly the read-only fields |
| AlertConfigs.AddDefault | configuration-migration/alert-configs/migrator.py:177-200 | one defaulting step sets the key only when it is absent |
| AlertConfigs.AddDefaults | configuration-migration/alert-configs/migrator.py:176-200 | the defaulting steps add exactly the missing defaults |
| AlertConfigs.FormatConfigForApi | configuration-migration/alert-configs/migrator.py:160-202 | the formatting method computes exactly the formatting function, error included |
| AlertConfigs.CreateRequest | configuration-migration/alert-configs/migrator.py:125-140 | a create request exists exactly when the configuration has `id` and `alertName`; it PUTs the formatted configuration to the configuration's own id |
| AlertConfigs.UpdateRequest | configuration-migration/alert-configs/migrator.py:142-158 | an update request exists under the same condition and PUTs the formatted configuration to the target's id |
| AlertConfigs.UpdateConfig | configuration-migration/alert-configs/migrator.py:50-55 | the update branch has exactly the effect of the update function: updated on success, nothing otherwise |
| AlertConfigs.CreateConfig | configuration-migration/alert-configs/migrator.py:59-60 | the create branch has exactly the effect of the create function |
| AlertConfigs.MigrateConfig | configuration-migration/alert-configs/migrator.py:39-60 | one loop iteration has exactly the outcome of the per-configuration step function `ConfigItem`, which counts a write done when the reply is `Accepted` |
| AlertConfigs.Counts | configuration-migration/alert-configs/migrator.py:64-68 | the summary has exactly the keys migrated, updated and skipped |
| AlertConfigs.ConfigRun | configuration-migration/alert-configs/migrator.py:18-68 | a finished run reports exactly the keys migrated, updated and skipped (no source count) |
| AlertConfigs.NameSet | configuration-migration/alert-configs/migrator.py:37 | building the set of taken names raises TypeError exactly when some target has a truthy list or dict `alertName`, and every name in a built set hashes |
| AlertConfigs.NameSetMeaning | configuration-migration/alert-configs/migrator.py:37 | a name is in the built set exactly when it is truthy and some target carries it |
| AlertConfigs.UnhashableTargetNameCrashes | configuration-migration/alert-configs/migrator.py:18-44 | with valid settings, one truthy list or dict target name ends the run with TypeError, whatever the source holds |
| AlertConfigs.MigrateLoop | configuration-migration/alert-configs/migrator.py:37-60 | the loop ends with exactly the counters and cancel flag of the generic loop `Migration.RunLoop` over the per-configuration step `ConfigItem` |
| AlertConfigs.MigrateConfigs | configuration-migration/alert-configs/migrator.py:18-68 | the method computes exactly the run's outcome |
| AlertConfigs.UnreadableListingIsEmpty | configuration-migration/alert-configs/migrator.py:70-105 | an unreadable source or target listing behaves exactly as an empty one, and an unreadable source gives all zeros unless building the set of target names raises TypeError |
| AlertConfigs.ConfigTallyBounded | configuration-migration/alert-configs/migrator.py:37-68 | migrated, updated and skipped never exceed the number of source configurations |
| AlertConfigs.TakenNameFound | configuration-migration/alert-configs/migrator.py:52-55 | an update goes to the first target configuration with the same name, and counts updated exactly when that PUT succeeds |
| AlertConfigs.DuplicateOutcomes | configuration-migration/alert-configs/migrator.py:44-57 | for a known name the first recognised (stripped, lowercased) answer decides: skip counts skipped, cancel stops the loop, update counts updated or nothing and never falls through to a create |
| AlertConfigs.NewConfigOutcomes | configuration-migration/alert-configs/migrator.py:39-60 | a nameless configuration is not counted; a truthy list or dict name ends the run with TypeError at the membership test; a new hashable name is migrated exactly when its create request succeeds |
| AlertConfigs.AnswerU | configuration-migration/alert-configs/migrator.py:108-121 | the answer `u` is recognised as update, and a first typed line `u` answers update after one line |
| AlertConfigs.DuplicateUpdated | configuration-migration/tests/test_alert_configs_migrator.py:302-319 | a known configuration answered with `u` against an accepting target is counted updated |
| AlertConfigs.UpdateThenCreate | configuration-migration/tests/test_alert_configs_migrator.py:302-319 | one duplicate answered with update and one new configuration give migrated 1, updated 1, skipped 0 |
| AlertConfigs.UpdatedThenMigrated | configuration-migration/tests/test_alert_configs_migrator.py:318 | an update followed by a create brings the counters to 1, 1, 0 |
| CustomEvents.SourceEvents | configuration-migration/custom-events-specification/migrator.py:110-149 | the source events come from the file exactly when `events_source` lowercases to "file", and from the API otherwise |
| CustomEvents.UpdateEvent | configuration-migration/custom-events-specification/migrator.py:227-276 | the update's result is `UpdateResult`'s: the PUT to the first target event with the name, which succeeds exactly when the reply is a JSON object with an `id` and raises TypeError on a string or list reply that contains `id`; and the event dict loses its `id` exactly when such a target with an `id` was found |
| CustomEvents.UpdateWithoutMatch | configuration-migration/custom-events-specification/migrator.py:240-248 | with no target event of that name the update fails without a request |
| CustomEvents.UpdateGoesToFirstMatch | configuration-migration/custom-events-specification/migrator.py:245-272 | the update PUTs the event minus `id` to the id of the first target event with the name, and succeeds exactly when the reply is a JSON object with an `id`; a string or list reply that contains `id` raises TypeError |
| CustomEvents.CreateEvent | configuration-migration/custom-events-specification/migrator.py:93-97 | the create branch removes `id` from the event in place and has exactly the create step's outcome, whose POST (`CreateResult`) succeeds exactly when the reply is a JSON object with an `id` and escapes with TypeError on a string or list reply that contains `id` |
| CustomEvents.CreateIgnoresId | configuration-migration/custom-events-specification/migrator.py:93-97 | whether the event still had an `id` makes no difference to the create |
| CustomEvents.DuplicateEvent | configuration-migration/custom-events-specification/migrator.py:77-97 | the duplicate branch has exactly the duplicate step's outcome, and the event loses its `id` exactly when the answer was update |
| CustomEvents.MigrateEvent | configuration-migration/custom-events-specification/migrator.py:62-97 | one loop iteration has exactly the outcome of the per-event step `EventItem`, whose writes are `UpdateResult` and `CreateResult`, and the event loses its `id` exactly when the iteration writes it |
| CustomEvents.Unstarted | configuration-migration/custom-events-specification/migrator.py:44-50 | an early summary has exactly the keys source, migrated and skipped |
| CustomEvents.EventsRun | configuration-migration/custom-events-specification/migrator.py:31-108 | a finished run reports either the three early keys or the four keys source, migrated, updated and skipped |
| CustomEvents.MigrateLoop | configuration-migration/custom-events-specification/migrator.py:55-97 | the event loop ends with exactly the counters and cancel flag of the generic loop `Migration.RunLoop` over the per-event step `EventItem` |
| CustomEvents.MigrateEvents | configuration-migration/custom-events-specification/migrator.py:31-108 | the method computes exactly the run's outcome |
| CustomEvents.RunIsLoop | configuration-migration/custom-events-specification/migrator.py:42-108 | with both listings read, the run reports the source count and the loop's counters |
| CustomEvents.EventsEarlyReturns | configuration-migration/custom-events-specification/migrator.py:43-50 | an unreadable source gives all zeros, an unreadable target gives the source count with zeros, and an early summary never reports a migration |
| CustomEvents.SourceChoice | configuration-migration/custom-events-specification/migrator.py:116-149 | the run depends only on the listing `events_source` selects |
| CustomEvents.EventsTallyBounded | configuration-migration/custom-events-specification/migrator.py:55-108 | migrated, updated and skipped never exceed the source count |
| CustomEvents.IdReferenceSkipped | configuration-migration/custom-events-specification/migrator.py:70-74 | a named event whose query is a string containing `.id` is counted skipped and never written |
| CustomEvents.EventOutcomes | configuration-migration/custom-events-specification/migrator.py:62-97 | a new name is created; for a known name the first recognised answer decides: skip counts skipped, cancel stops the loop, and an update that fails falls through to a create |
| CustomEvents.UpdatedMeansFound | configuration-migration/custom-events-specification/migrator.py:77-88 | an event is counted updated only when its name is in the target, its query is not an id reference, the answer was update and the PUT returned a JSON object with an `id` |
| CustomEvents.CountedMeansWritten | configuration-migration/custom-events-specification/migrator.py:62-97 | an event is counted migrated or updated only when it was written |
| CustomEvents.AllNewEventsMigrated | configuration-migration/tests/test_events_migrator.py:261-276 | when every source event is named, new, not an id reference and created, the loop migrates all of them and skips none |
| WebsiteConfigs.Listing | configuration-migration/website-configs/migrator.py:25-68 | a listing is missing only when the reply body is JSON null, and a failed fetch reads as an empty listing |
| WebsiteConfigs.SourceSites | configuration-migration/website-configs/migrator.py:25-51 | the source sites come from the file exactly when `events_source` equals "file", with no lowercasing, and from the API otherwise |
| WebsiteConfigs.BuildWebsiteMapping | configuration-migration/website-configs/migrator.py:70-82 | the mapping loop computes exactly the mapping function, its TypeError included |
| WebsiteConfigs.TargetByNameLastWins | configuration-migration/website-configs/migrator.py:73 | when the name index is built, a target name maps to the id of the last target website with that name |
| WebsiteConfigs.TargetByNameKeys | configuration-migration/website-configs/migrator.py:73 | building the name index raises TypeError exactly when some target website's `name` is a list or dict; otherwise it has exactly the names (including a missing name) of the target websites |
| WebsiteConfigs.MappingKeys | configuration-migration/website-configs/migrator.py:75-81 | the mapping raises TypeError when the name index does, or exactly when a source website with a truthy name and id has a list or dict name, or a known name and a list or dict id; otherwise a source id is mapped exactly when it is truthy and belongs to a source website whose truthy name is a target name |
| WebsiteConfigs.Remember | configuration-migration/website-configs/migrator.py:146-153 | remembering a created website adds at most its own source id |
| WebsiteConfigs.RememberCreated | configuration-migration/website-configs/migrator.py:148-153 | the re-fetch scan records exactly what the remember function says |
| WebsiteConfigs.MigrateSite | configuration-migration/website-configs/migrator.py:131-154 | one loop iteration moves the state exactly as the per-site step function `SiteStep` |
| WebsiteConfigs.MigrateSites | configuration-migration/website-configs/migrator.py:128-154 | the site loop ends in exactly the state of the loop function `SiteLoop` from the initial mapping and zero counts |
| WebsiteConfigs.MappingOnlyGrows | configuration-migration/website-configs/migrator.py:131-154 | a loop that does not raise never removes or changes a mapped id |
| WebsiteConfigs.SiteLoopCounts | configuration-migration/website-configs/migrator.py:131-154 | a loop that does not raise never decreases a count and adds at most one per site |
| WebsiteConfigs.SiteLoopRaises | configuration-migration/website-configs/migrator.py:131-154 | the site loop raises TypeError exactly when some site has a truthy name and a truthy list or dict id |
| WebsiteConfigs.SiteOutcomes | configuration-migration/website-configs/migrator.py:131-154 | a site without a truthy name or id changes nothing; a truthy list or dict id raises TypeError; a mapped id is counted skipped; an unmapped one is counted migrated exactly when the create succeeds |
| WebsiteConfigs.CreatedIsMapped | configuration-migration/website-configs/migrator.py:146-153 | after a successful create the source id, which hashes, maps to the id of the first re-fetched website with the same name |
| WebsiteConfigs.Migrate | configuration-migration/website-configs/migrator.py:101-165 | the method computes exactly the run's outcome `WebsitesRun` |
| WebsiteConfigs.WebsiteEarlyReturns | configuration-migration/website-configs/migrator.py:113-122 | a missing or empty source listing reports all zeros and an empty mapping; a null target listing reports the source count with zeros |
| WebsiteConfigs.UnreachableTargetIsEmpty | configuration-migration/website-configs/migrator.py:53-68 | an unreachable target listing behaves exactly as an empty one |
| WebsiteConfigs.WebsiteRunCrashes | configuration-migration/website-configs/migrator.py:101-165 | with valid settings, a non-empty source and a readable target, the run ends with an exception exactly when building the mapping raises or some source website has a truthy name and a truthy list or dict id |
| WebsiteConfigs.ReportExtendsInitialMapping | configuration-migration/website-configs/migrator.py:124-165 | with both listings read, the counts stay within the source count, and a reported run over a non-empty source built the initial mapping without raising and reports a mapping that extends it |
| WebsiteConfigs.AllKnownSkipped | configuration-migration/website-configs/migrator.py:139-143 | when every key of the mapping hashes and every site is named and already mapped, each one is counted skipped and nothing else changes |
| WebsiteConfigs.KnownNameIsMapped | configuration-migration/website-configs/migrator.py:75-81 | when the mapping is built, a named source website with an id whose name some target website has is mapped |
| Migration.IdReturned | configuration-migration/alert-channels/migrator.py:326-344 | a write that fails at the HTTP layer reports failure; a reply succeeds exactly when it is a JSON object with an `id`, fails exactly when `'id' in` it is False, and otherwise raises TypeError: at `in` for a value that is not a container, at the success message's `['id']` for a string or list that contains `id` |
| Migration.IdInStringRaises | configuration-migration/custom-dashboards/migrator.py:391-394 | a string reply such as "valid id" and a list reply holding "id" pass the `in` test and then raise TypeError, while an object with an `id` succeeds |
| Migration.TruthyValues | configuration-migration/alert-channels/migrator.py:53 | the known target names are exactly the truthy names of the target items |
| Migration.IdOfFirst | configuration-migration/custom-events-specification/migrator.py:245-248 | the id found is that of the first item with the wanted name, and nothing is found when there is no such item or the first one has no `id` |
| Migration.Apply | configuration-migration/alert-channels/migrator.py:62-91 | each effect adds at most one to the counters and never decreases any of them |
| Migration.RunLoopCounts | configuration-migration/alert-channels/migrator.py:62-91 | a migration loop that ends never decreases a counter and counts each item at most once |
| Migration.RunLoopAllMigrated | configuration-migration/alert-channels/migrator.py:62-91 | when every item is migrated without reading input, the loop counts them all as migrated and is not cancelled |
| Migration.RunLoopTwo | configuration-migration/alert-channels/migrator.py:62-91 | a loop over two items applies their two effects in order |
| Migration.OrEmpty | configuration-migration/alert-configs/migrator.py:70-105 | a listing that could not be read is taken as empty; a read listing is used as it is |
| Prompts.SucAnswer | configuration-migration/alert-channels/migrator.py:289-296 | the duplicate menu recognises exactly s/skip, u/update and c/cancel |
| Prompts.StrategyAnswer | configuration-migration/custom-dashboards/migrator_async.py:158-170 | the strategy menu recognises exactly o/override, s/skip and c/cancel after lowercasing |
| Prompts.FirstAnswer | configuration-migration/alert-channels/migrator.py:280-296 | the prompt loop stops at the first recognised line, having read exactly the lines up to it, and runs out of input only when no line is recognised |
| Prompts.Ask | configuration-migration/alert-channels/migrator.py:280-296 | the prompt loop method returns exactly the first-answer function's result |
| Prompts.ShiftStep | configuration-migration/alert-channels/migrator.py:280-296 | an unrecognised line only moves the answer one line further |
| Prompts.FirstAnswerAt | configuration-migration/alert-channels/migrator.py:280-296 | the answer is the first recognised line, after reading exactly that many lines |
| Prompts.LowerIdempotent | configuration-migration/alert-channels/migrator.py:287 | lowercasing twice is lowercasing once |
| Prompts.MenuWordsRecognised | configuration-migration/alert-channels/migrator.py:287-294 | each menu word and its first letter are recognised, in any case |
| Prompts.OnlyConfigMenuStrips | configuration-migration/alert-configs/migrator.py:114 | a padded answer ` u ` is refused by the menus that only lowercase and accepted by the alert-configuration menu, which also strips |
| Tally.Summary | configuration-migration/custom-dashboards/migrator_async.py:122-127 | a run summary has exactly the keys source, migrated, updated and skipped |
| Tally.Count | configuration-migration/custom-dashboards/migrator_async.py:114-116 | `list.count` never exceeds the length of the list |
| Tally.CountAppend | configuration-migration/custom-dashboards/migrator_async.py:114-116 | counting over two lists joined is the sum of the counts |
| Scenarios.SkipExistingDashboard | configuration-migration/tests/test_custom_dashboards_migrator.py:106-122 | one complete source dashboard whose title is already in the target, with `on_duplicate` "skip", gives source 1, migrated 0, updated 0, skipped 1 |
| Scenarios.LoopSkipsTheDuplicate | configuration-migration/tests/test_custom_dashboards_migrator.py:106-122 | the synchronous loop in skip mode counts that dashboard skipped and nothing else |
| Scenarios.TestSettingsValid | configuration-migration/config.py:222-235 | the settings of that scenario pass validation |
| Scenarios.SourceDashboardAccepted | configuration-migration/tests/test_custom_dashboards_migrator.py:111 | that scenario's source dashboard passes preparation |
| Scenarios.TitleAlreadyThere | configuration-migration/tests/test_custom_dashboards_migrator.py:112 | that scenario's source title is among the truthy target titles |
| Cli.ArgListSnoc | configuration-migration/cli.py:78-86 | the argument list of a namespace with one more item is the old list followed by that item's words |
| Cli.ArgList | configuration-migration/cli.py:78-86 | the loop over the parsed namespace builds exactly the argument list function: a flag for each true switch, a flag and the value's text for each other present value, nothing for the command or absent values |
| Cli.ParseItem | configuration-migration/config.py:108 | parsing one declared item's words stores exactly that item |
| Cli.ParseArgList | configuration-migration/config.py:108 | when every item is declared by the configuration parser, parsing the argument list stores exactly the namespace's values |
| Cli.StoreText | configuration-migration/config.py:108 | a present text option is stored under its flag and an absent one leaves the arguments untouched |
| Cli.StoreDashboardOptions | configuration-migration/cli.py:66-67 | the owner and duplicate options reach the configuration only for the custom-dashboards command |
| Cli.StoreCommonOptions | configuration-migration/cli.py:25-32 | the eight shared options reach the configuration with their parsed values |
| Cli.NamespaceDeclared | configuration-migration/cli.py:21-67 | every option a subcommand declares is declared, with the same kind, by the configuration parser |
| Cli.ArgListRoundTrip | configuration-migration/cli.py:78-89 | passing the parsed options through the argument list to the configuration parser gives back exactly those options, the dashboard ones only for custom-dashboards, and never the tuning options |
| Cli.ExitZeroIff | configuration-migration/cli.py:99-146 | the program exits 0 exactly when the migrator finished with a `migrated` key and a positive migrated or updated count, or when the user cancelled at the strategy prompt |
| Cli.MainUsesGivenOptions | configuration-migration/cli.py:70-146 | with a command and valid choices, the outcome is that of the configuration built from exactly the parsed options and the migrator the command selects |
| Cli.NoCommandExitsOne | configuration-migration/cli.py:73-75 | without a command the program exits 1 |
| Cli.ConfigErrorExitsOne | configuration-migration/cli.py:148-153 | when building the configuration raises, the program exits 1 |
| Cli.EventsEarlyReturnExitsOne | configuration-migration/cli.py:97-104 | an events run that returned early, with no `updated` key, makes the exit-code test raise and the program exit 1 |
| Cli.Run | configuration-migration/cli.py:12-153 | the main method ends exactly as the main function says |
| Cli.MigrateDashboards | configuration-migration/custom-dashboards/migrator.py:36-68 | building and running the dashboards migrator gives the async run when aiohttp is available (a negative concurrency raises at construction) and the synchronous run otherwise |
| Json.Get | configuration-migration/custom-dashboards/migrator_async.py:183 | `dict.get` gives the value under a present key and None (JSON null) otherwise |
| Json.Contains | configuration-migration/custom-dashboards/migrator_async.py:216-222 | Python's `in` on a widget: key membership for a dict, and a TypeError only for values that are not a dict, string or list |
| Json.Subscript | configuration-migration/custom-dashboards/migrator_async.py:218-220 | subscripting succeeds exactly on a dict holding the key, with its value |
| Json.LessThanOne | configuration-migration/custom-dashboards/migrator_async.py:218-220 | `< 1` is defined for integers, floats and booleans (as Python compares them) and raises otherwise |
| Json.Lower | configuration-migration/alert-channels/migrator.py:287 | `str.lower` on ASCII text keeps the length and lowercases each letter |
| Json.StripLeft | configuration-migration/alert-configs/migrator.py:114 | stripping leading whitespace (every character `str.isspace` accepts, ASCII or not) leaves a suffix that does not start with whitespace |
| Json.StripRight | configuration-migration/alert-configs/migrator.py:114 | stripping trailing whitespace leaves a prefix that does not end with whitespace |
| Json.StripNoBreakSpace | configuration-migration/alert-configs/migrator.py:114 | a no-break space is stripped like any other whitespace: `'\xa0u\xa0'.strip()` is `u` |
| Json.PyStr | configuration-migration/alert-channels/migrator.py:80 | `str()` of a string is the string itself, and floats and containers are the only values whose text is not modelled |
| Json.IndexByKeys | configuration-migration/custom-dashboards/migrator_async.py:70 | the map a dict comprehension builds when every key hashes has exactly the keys of the items it admits |
| Json.IndexByLastWins | configuration-migration/custom-dashboards/migrator_async.py:70 | in the map a dict comprehension builds, the last admitted item with a key decides its value |
| Json.DictComp | configuration-migration/custom-dashboards/migrator_async.py:70 | a dict comprehension raises TypeError exactly when some admitted item's key is a list or dict; otherwise it builds the indexed map, every key of which hashes |
| Json.Member | configuration-migration/custom-dashboards/migrator_async.py:435 | `x in d` raises TypeError exactly when `x` is a list or dict, and otherwise answers whether `x` is a key |
| Json.JsonDict.Discard | configuration-migration/custom-dashboards/migrator_async.py:190-195 | `del` removes exactly that key from the dict in place |
| Json.JsonDict.Set | configuration-migration/custom-dashboards/migrator_async.py:199-203 | assignment sets exactly that key in place |

## Left out

- RateLimit.OneWaitSuffices: assumes no sleep wakes early (`NonNegative`:
  each clock reading is at least the previous one plus the sleep asked for).
  asyncio may end a sleep up to its clock resolution early, and then an
  acquire can need a third reading. `RateLimit.ManyAcquiresSucceed`,
  `RateLimit.AcquireManyValid`, `RateLimit.GrantsWithinWindow` and
  `DashboardsAsync.GateFromLimiter` rest on the same assumption.
- HTTP (`requests`, `aiohttp`, `async_client.py` and its retry policy) is not modelled. Each request is an input: a reply body, an HTTP error status or a failed request, decided by the payload. Retries, timeouts, TLS settings and `raise_for_status` details are out of scope.
- asyncio concurrency (`Semaphore`, `gather`, `Lock`, `sleep`) is modelled sequentially. The coroutines run in list order and the tally only counts tags. A semaphore of 0 and a negative rate are modelled as waiting forever, and a rate of 0 as the ZeroDivisionError that the first `acquire` raises. Each detail fetch raises it and `gather` drops it, so no dashboard reaches a create.
- `time.monotonic()` is a sequence of clock readings. Floats are exact reals, so rounding in the limiter is not modelled.
- Console output (`print`) is left out. `input()` and `sys.stdin.isatty()` are a sequence of typed lines and a flag.
- File I/O is left out: the JSON caches and source files the migrators read or write, the existence check and `configparser` parsing. A configuration file is an already-parsed map of sections, and a JSON source file is an already-decoded listing. Read errors other than a missing file are not distinguished.
- The listings are assumed to be lists of JSON objects. A source or target body of another JSON shape is not modelled.
- `main`'s own `parse_args` is left out, along with the usage errors argparse reports for the top-level parser. The model starts from the parsed namespace.
- The configuration parser is modelled only on argument lists of the shape `main` builds. Argparse's prefix abbreviations and `--flag=value` are left out. So is its refusal of a value that starts with `-`: `main` can rebuild one from `--source-token=-abc`, and argparse then exits with status 2, where the model's parser reads it as the value.
- `main` never passes the four tuning options (`max_concurrent` and the others), because no subcommand declares them. The model states this rather than modelling their text.
- `Json.PyStr` does not model `str()` of floats, lists and dicts. JSON keys of other types are not modelled either, nor Python's `1 == True` key equality: object keys are strings.
- Json.Hashable: only the refusal to hash a list or dict is modelled. Python also treats `1`, `1.0` and `True` as the same key, where the model's keys are `Json` values that differ by case, so a title `1` does not find a known title `true`.
- JSON numbers with a fraction are `JReal` values, exact reals without float rounding. Python's `6.0 == 6` is not modelled: a float and an integer are different `Json` values, and the model does not compare numbers by value.
- Json.Lower: lowercases only the ASCII letters. Python's `str.lower` also maps other letters, some to a different length (`'İ'.lower()` has two characters, and `'\u212a'.lower()` is `k`), so a menu word typed with such letters is recognised by the source but not by the model.
- AppConfig.ParseInt: accepts only the ASCII digits. Python's `int()` also accepts other Unicode decimal digits, such as `'\u0663'` for 3, which the model rejects with ValueError.
- DashboardPrepare.DictWidgets: Python walks a dict of widgets in key insertion order, which a map does not keep. Only the first key matters. The model puts keys that are refused ahead of keys that raise, and among refused keys puts those without "config" first. So a dict whose keys are of both kinds may be refused in the model where the source raises, or name `config` where the source does not. `DictWidgetsOrderFree` states the outcomes that hold in every order; `DictWidgetsVerdict` states the verdict in the model's order.
- Settings left partly updated when a layer raises ValueError are not described. The exception propagates and the object is discarded.
- The identity of Python objects is left out, beyond the dicts the migrators mutate in place.
- `delete_all_dashboards.py`, `run_tests.py`, `setup.py` and `tests/conftest.py` are not part of this model. The test files serve only as concrete scenarios: `Scenarios`, `AlertConfigs.UpdateThenCreate` and `CustomEvents.AllNewEventsMigrated`.
- The synchronous dashboard migrator's `_get_source_dashboards` (a listing, then every detail; any failed request fails the whole fetch) and `_get_target_dashboards` are inputs, each a listing or None; a listing item without `id` (a KeyError that escapes) is not modelled.
- DashboardsAsync.Tags: states only one tag per prepared dashboard. The content of each tag is stated by `CreatedIff`, `KnownTitleSkipped`, `KnownTitleUpdated` and `VerifiedTag`.
- DashboardsSync.DuplicateChoice: states only that no more lines are read than typed. What the answer is, is stated by `DuplicateChoiceMeaning`.
