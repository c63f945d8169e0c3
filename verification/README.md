# Team tasks, verified

A model in Dafny of a service in which teams keep tasks: who may join a team, how tasks are created, listed,
updated and audited, how task lists are cached, how clients are rate limited, what the three reports count, how the
logger swaps its configuration, and how the schema generator rewrites a README. All theorems hold for every input,
every run of requests or every interleaving of steps, as stated.

## How it is laid out

| module | what it holds |
|---|---|
| `Text`, `Domain`, `Sorting` | printed numbers, UUIDs and dates; the shared values; when a sorted listing is unique |
| `CacheKeys`, `TaskQuery` | the cache key and the invalidation pattern; the list query with its paging |
| `Audit`, `AuditTrail` | the field diff of an update; history that replays and undoes, over whole runs |
| `TaskCache` | the cache and its SCAN/DEL loop, with other clients at work between any two calls |
| `World`, `Services` | the service as one step function, and the objects whose methods are those steps |
| `Requests` | what each request answers, stores and records, in terms of the tables and columns alone |
| `Transparency` | requests that do not overlap cannot tell the cached service from an uncached one |
| `Protocol` | the steps of list and write requests taken apart and interleaved freely |
| `Membership`, `Analytics` | teams and roles over all runs; the meaning of the three reports |
| `Limiter` | the token bucket, the map with its sweeps, and what a client is promised |
| `Logger` | configurations that are copied before they are changed, and the handler cache stamped with them |
| `Schema` | the splice between markers and the diagram printer |

Code that changes state is modelled by classes and loops (`TaskCache.Cache`, `Services`, `Limiter.RateLimiter`,
`Logger`, `Schema.TableReader`, `Audit.BuildHistoryEntries`), each proved against a function of the old state; the
theorems are then about those functions. `Services` ties every method to `World.Step`, so whatever is proved of runs
of `World` holds of sequences of calls on those objects.

Failures of stores are inputs: a request says which of its calls fail (`World.Faults`), an invalidation may fail after
deleting part of the keys, a transaction may fail at any statement, and cache entries may vanish at any time.

## What turned out to differ from the documentation or from what one would expect

- The repository's README (line 30) and the comment on `RateLimit` promise at most 100 requests a minute in a sliding
  window. The code is a token bucket that starts full. `SlidingWindowClaimIff`: a window of w nanoseconds never holds
  more than rpm admissions if and only if rpm·w is less than one token. `TwicePerMinute` gives the true bound, and
  `TwicePerMinuteIsReached` shows that it is reached.
- Sweeping idle buckets is invisible exactly if no request may spend more than 540 000 000 001 ns (nine minutes and a
  nanosecond) between looking up its bucket and asking it, at every rate above zero (`EvictionIsUnobservableIff`).
  One nanosecond more, and some run admits a request that the client's own past forbids (`StallShows`).
- A list request whose status filter is the word "all" shares its cache slot with the request without a status filter,
  and no other two requests share one (`KeysCollideIff`, for all statuses, also with colons in them). The answer is
  then wrong exactly if the unfiltered list is not empty (`AllStatusWrongIff`). The other way round it is worse: after a
  list for "all", the unfiltered list is answered with the empty one (`AllStatusEmptiesUnfiltered`).
- The page offset is a 64-bit product. It is right exactly up to the page given in `OffsetExactIff`; beyond it a far
  page can repeat the first (`OverflowRepeatsFirstPage`).
- "Every team has an owner" is false: an owner who invites himself becomes a plain member. This is the only way
  (`OwnerRemainsIff`), and such a team can never change again (`OwnerlessTeamIsFrozen`, `TeamGrowsIff`).
- Two updates of one task that both read it before either wrote: `changed_at` is taken before the transaction, so the
  update that commits last may carry the earlier time, or the same. The history explains the stored row, in every
  listing, exactly if each column the first one changed has a later row of the second one, or was left by both with the
  same text (`OverlapAuditIff`). Undoing gives the creation values back in any case (`OverlapStillUndoes`).
- The history is ordered by `changed_at` alone. Listings that differ only among ties replay a column alike exactly if
  its latest rows agree (`ListingsAgreeIff`), which holds whenever updates of one task have distinct times.
- Taken for itself, the diff of two arbitrary instants records equal texts exactly for a due date moved within one day
  (`SilentEntryIff`). Requests and the DATE column carry whole days only, and then every entry records a visible change
  (`WholeDayEntriesAreVisible`).
- Lists and writes of a team may overlap freely, as long as no list that read before a commit stores after the scan of
  that write began (`CalmRunsAreCoherent`). One such late store, during the scan or after it, can leave a stale entry
  (`OverlapLeavesStaleHit`); with a time to live of zero it stays for ever. `HitsAreBoundedlyStale` bounds the age in all
  other cases.
- The handler puts all attributes before all groups, so an attribute added after a group is not qualified by it.
  `DerivedOrderIff` says exactly for which derivations this agrees with the `slog` contract.
- Two `Handle` calls around a configuration swap can leave the new version stamped on the old handler
  (`SwapBetweenCallsMismatches`); calls that overlap only with calls of the same configuration never do
  (`CallsUseTheirConfig`).
- A key line that stands before the column it names is lost on that column (`KeyIsLostIff`).

## Assumptions

- Tokens are whole numbers: one token is 60·10⁹ units and rpm units flow each nanosecond. `rate.Limiter` is taken to
  be a token bucket that starts full. Its floating-point rounding is not modelled.
- `SCAN` returns only matching keys and, over a full iteration, every matching key that stayed in the keyspace
  throughout; `COUNT` and `MATCH` have no other effect. A transaction is atomic. A repeated primary key is an error.
- Rows with equal `created_at` come in some fixed order per state of the table; `OrderIsForced` says that with distinct
  times there is only one.
- Glob patterns are modelled with `*`, `?` and `\`, which is all that the patterns of this program can need.
- Enum columns may reject a status or priority: this is one of the write failures.

## Model

| member | source | states |
|---|---|---|
| `CacheKeys.KeysCollideIff` | internal/service/task/task.go:344-360 | Two list requests have the same cache key if and only if they are equal up to spelling the absent status as "all", over all teams, statuses (colons allowed), assignees, pages and limits |
| `CacheKeys.PrefixGlob` | internal/storage/redis/taskcache.go:82 | A pattern made of a literal prefix and a final star matches exactly the strings with that prefix |
| `CacheKeys.PatternSelectsTeam` | internal/service/task/task.go:362-364 | The invalidation pattern of a team matches a list key if and only if the list is of that team |
| `Text.UuidTextInjective` | internal/service/task/task.go:363 | Equal UUID texts come from equal UUIDs |
| `Text.DateTextIdentifiesDay` | internal/service/task/task.go:387-392 | Two instants print as the same date if and only if they fall on the same UTC day |
| `Text.DecReads` | internal/service/task/task.go:359 | A number is printed in base ten |
| `Text.UuidTextReads` | internal/service/task/task.go:349 | A UUID is printed as its bytes in hexadecimal, in groups of 4, 2, 2, 2 and 6 bytes |
| `Text.DateTextReads` | internal/service/task/task.go:391 | A date is printed as four digits of year, two of month and two of day, with dashes between them |
| `TaskQuery.NewestFirstSorts` | internal/storage/mysql/task.go:133-137 | The listing is a permutation of the selected rows, newest first |
| `TaskQuery.OrderIsForced` | internal/storage/mysql/task.go:135 | With distinct creation times, any listing the ORDER BY clause allows is the modelled one |
| `TaskQuery.NormaliseIsRetraction` | internal/service/task/task.go:170-178 | Normalising puts page and limit in range, is idempotent, and changes a request only if it was out of range |
| `TaskQuery.OffsetExactIff` | internal/storage/mysql/task.go:129 | The wrapped 64-bit offset is the intended product if and only if page - 1 is at most the quotient of the largest int and the limit |
| `TaskQuery.OverflowRepeatsFirstPage` | internal/storage/mysql/task.go:129-137 | A page number for which the offset wraps to zero: that page lists the first page again, for every table |
| `TaskQuery.PagesPartition` | internal/storage/mysql/task.go:111-155 | Pages 1 to ceil(total/limit), one after another, are the whole filtered listing in order |
| `TaskQuery.LaterPagesEmpty` | internal/storage/mysql/task.go:129-154 | Every later page whose offset fits is empty and still reports the same total |
| `TaskQuery.OverwriteIsTeamLocal` | internal/storage/mysql/task.go:173-181 | Rewriting a row of one team leaves the selection of every list of another team as it was |
| `TaskQuery.InsertIsTeamLocal` | internal/storage/mysql/task.go:63-71 | Inserting a row of one team leaves the selection of every list of another team as it was |
| `Audit.RecordedIsFaithful` | internal/service/task/task.go:283-297 | The recorded texts of two tasks agree on all columns if and only if their audited columns agree, due dates up to the day |
| `Audit.BuildHistoryEntries` | internal/service/task/task.go:261-300 | The edited task is the old one overlaid with the supplied fields, and the entries are exactly the column-by-column differences to it, in the order of the columns |
| `Audit.EntriesOfField` | internal/service/task/task.go:261-300 | For each column there is one entry, with the old and the new text, if the input changes that column, and none otherwise |
| `Audit.SilentEntryIff` | internal/service/task/task.go:292-297 | For arbitrary instants, an entry has equal old and new texts if and only if it is a due date moved within one day |
| `Audit.WholeDayEntriesAreVisible` | internal/service/task/task.go:261-300 | With due dates at midnight UTC, a column changes if and only if its recorded text does |
| `Audit.UpdateIsIdempotent` | internal/service/task/task.go:261-300 | Sending an update again changes nothing and records nothing; an update records nothing if and only if it changes nothing |
| `Audit.ReplayAndUndo` | internal/storage/mysql/task.go:238-242 | If the rows of a column chain two values, every listing sorted by changed_at replays from the first to the second and undoes back |
| `Audit.ListingsAgree` | internal/storage/mysql/task.go:240 | Sorted listings of the same rows show each column the same, however they order ties between columns |
| `Audit.UpdateExtendsChain` | internal/service/task/task.go:242-248 | One more update at a later time keeps every column's rows chained, now to the updated value |
| `Audit.ListingsAgreeIff` | internal/storage/mysql/task.go:238-242 | All sorted listings replay a column to the same value if and only if its latest rows do not disagree |
| `AuditTrail.StepKeepsHistory` | internal/service/task/task.go:205-259 | Every request keeps, for every task and column, a history that leads from the creation value to the stored one |
| `AuditTrail.HistoryReplays` | internal/service/task/task.go:302-337 | After any run with increasing update times, any listing of a task's history turns its creation values into the stored ones, and undoing gives them back |
| `AuditTrail.OverlapAuditIff` | internal/service/task/task.go:216-248 | For two updates that read the same task, with times in either order or equal: every listing of the whole history replays every column to the row finally stored if and only if each column the first changed has a later row of the second or was left by both with the same text |
| `AuditTrail.OverlapStillUndoes` | internal/service/task/task.go:216-248 | After such a pair, undoing any listing from the stored row still gives the creation values back |
| `TaskCache.Cache.Invalidate` | internal/storage/redis/taskcache.go:63-101 | The loop leaves the keyspace and the verdict of the round-by-round account, with others at work in between and errors at any call; without a star one key is deleted |
| `TaskCache.InvalidateClears` | internal/storage/redis/taskcache.go:77-97 | After success no matching key was there throughout, and one that is there now was written by somebody else meanwhile |
| `TaskCache.InvalidateSparesOthers` | internal/storage/redis/taskcache.go:77-97 | On success and on error, a key outside the pattern ends as it would have without the loop |
| `TaskCache.InvalidateAlone` | internal/storage/redis/taskcache.go:63-101 | With nobody else at work, success removes exactly the matching keys and an error removes only matching ones |
| `World.UniqueIdsStep` | internal/storage/mysql/task.go:63-79 | Every request keeps task ids unique |
| `Requests.CreateAnswersIff` | internal/service/task/task.go:93-141 | A task is created if and only if no call fails, caller and assignee are members and the id is new; it is forbidden exactly for a missing membership; a refused request changes nothing |
| `Requests.CreatedTask` | internal/service/task/task.go:113-141 | A created task is open, by the caller, of the given or else medium priority, as of now, with the rest from the input; it is appended to the table and nothing else changes |
| `Requests.UpdateAnswersIff` | internal/service/task/task.go:216-251 | An update is made if and only if no call fails, the task exists, and caller and any new assignee are members; not found and forbidden exactly for their reasons; a refused request changes nothing |
| `Requests.UpdatedTask` | internal/storage/mysql/task.go:173-181 | After an update answered with a task, the row with the id is that task, each supplied field from the input and everything else but the time of update as it was; all other rows are unchanged |
| `Requests.UpdateIsRecorded` | internal/storage/mysql/task.go:187-198 | Its history grows by exactly one row for each changed column, with the column, both texts, the caller and the time, and by no other |
| `Requests.UpdateIsCommit` | internal/service/task/task.go:242-255 | An update that was answered is the commit that the results about overlapping updates speak of |
| `Requests.ListAnswersOnlyMembers` | internal/service/task/task.go:158-168 | Only a member of the team asked for gets a list, others are forbidden, and the tables never change |
| `Requests.ListedTasks` | internal/storage/mysql/task.go:262-276 | After any run, an answered list holds distinct tasks of the table with the team, status and assignee asked for, newest first, and the number of all of those |
| `Requests.ListedSize` | internal/service/task/task.go:170-178 | An answered page is full, except for the last one and those behind it, with page 1 and 20 tasks by default and never more than 100 |
| `Requests.WantedIsListed` | internal/storage/mysql/task.go:111-155 | After any run, every task asked for is on some page that a member is then answered with |
| `Requests.CreatedTeam` | internal/service/team/team.go:62-92 | A team is created if and only if no call fails, the id is new and the owner exists, with that name and the owner as its only new member |
| `Requests.InviteAnswersIff` | internal/service/team/team.go:114-155 | An invitation is made if and only if no call fails, the team and the user exist and the caller is a member but not a plain one; then the user is a plain member; forbidden exactly for the caller's role |
| `Transparency.StepKeepsCoherence` | internal/service/task/task.go:138-145 | Every request with a successful invalidation keeps all cached lists equal to what the database answers |
| `Transparency.StepIsTransparent` | internal/service/task/task.go:180-202 | A request answers the same, and leaves the same database, as in a service without a cache |
| `Transparency.CacheIsTransparent` | internal/service/task/task.go:151-259 | Over any run, with cache reads and writes failing and entries expiring at will, all responses are those of the service without a cache |
| `Transparency.AnsweredListIsTrue` | internal/service/task/task.go:180-202 | Also with database reads failing, a list that is answered is the database's answer |
| `Transparency.AllStatusSeesUnfiltered` | internal/service/task/task.go:351-354 | Right after an unfiltered list, a list for status "all" returns the unfiltered one |
| `Transparency.AllStatusEmptiesUnfiltered` | internal/service/task/task.go:180-199 | Right after a list for status "all" that no task has, the unfiltered list is answered with the empty one, whatever tasks there are |
| `Transparency.AllStatusWrongIff` | internal/service/task/task.go:351-354 | While no task has the status "all", the lists for "all" and for no status are equal if and only if the unfiltered total is zero |
| `Protocol.CalmRunsAreCoherent` | internal/service/task/task.go:138-145 | If no list that read before a commit of its team stores after that write's scan began, and invalidations finish, then in every interleaving each live entry outside a write window is the current answer |
| `Protocol.HitsAreBoundedlyStale` | internal/service/task/task.go:180-202 | In every interleaving, failed invalidations included, the total and the page of a hit were each true at some moment no longer ago than the time to live plus the length of that fill |
| `Protocol.OverlapLeavesStaleHit` | internal/service/task/task.go:189-199 | One store after the scan began, during it or after its complete end, suffices: a live entry is then wrong for any time below the time to live, and for any time at all if that is zero |
| `Protocol.StepStaysGood` | internal/storage/redis/taskcache.go:79-97 | Each single step keeps the invariant: a live entry is current, or a writer that has yet to scan, or whose scan began with that key live, will delete it |
| `Protocol.FinishLeavesNothing` | internal/storage/redis/taskcache.go:94-100 | A scan that ends has deleted every key of its team that was live from its beginning |
| `Services.Database.CreateTeamWithOwner` | internal/storage/mysql/team.go:35-70 | Team and owner are both inserted or neither is |
| `Services.Database.SaveTask` | internal/storage/mysql/task.go:53-79 | The row is inserted, unless its id is taken or the call fails |
| `Services.Database.UpdateTaskWithHistory` | internal/storage/mysql/task.go:157-206 | Whichever statement fails, the row and all history entries are stored or nothing is |
| `Services.Database.ListHistory` | internal/storage/mysql/task.go:232-260 | The result is a permutation of the task's rows sorted by changed_at |
| `Services.TeamService.Create` | internal/service/team/team.go:62-92 | The new state and the answer are those of the model's step |
| `Services.TeamService.Invite` | internal/service/team/team.go:114-164 | The new state and the answer are those of the model's step, whatever became of the notification |
| `Services.TaskService.Create` | internal/service/task/task.go:82-149 | Tables and answer are those of the model's step whatever other clients do; the cache is what the scan leaves, and with no other client at work the whole new state is the step's |
| `Services.TaskService.List` | internal/service/task/task.go:151-203 | The new cache and the answer are those of the model's step |
| `Services.TaskService.Update` | internal/service/task/task.go:205-259 | Tables and answer are those of the model's step whatever other clients do; the cache is what the scan leaves, and with no other client at work the whole new state is the step's |
| `Services.TaskService.History` | internal/service/task/task.go:302-337 | A sorted listing of the task's own rows, answered if and only if the task exists, the caller is a member and no call fails |
| `Services.TaskService.InvalidateTeam` | internal/service/task/task.go:143-145 | The cache is what the scan over the team's pattern leaves; with no other client at work it loses exactly the lists of the team, or on an error some of them |
| `Membership.RunKeepsSettled` | internal/service/team/team.go:62-92 | Over any run: only the creator may be owner, nobody is admin, the creator stays a member, and members and teams are never removed |
| `Membership.InviterIsOwner` | internal/service/team/team.go:132-152 | A successful invitation was made by the team's creator while owner, and changes nothing but the invited user's role |
| `Membership.RolesChangeOnlyBy` | internal/storage/mysql/team.go:139-147 | A role in an existing team changes only by a successful invitation of that user, who then is a plain member |
| `Membership.MembersAreInvited` | internal/service/team/team.go:114-164 | After any run the members of a team are exactly its creator and those successfully invited |
| `Membership.OwnerRemainsIff` | internal/storage/mysql/team.go:143-145 | After any run a team has its owner if and only if he has never successfully invited himself |
| `Membership.OwnerlessTeamIsFrozen` | internal/service/team/team.go:132-152 | No run changes the members or roles of a team without an owner |
| `Membership.TeamGrowsIff` | internal/service/team/team.go:114-164 | A registered outsider can be brought in by some request if and only if the team has an owner |
| `Membership.NoOrphansReachable` | internal/storage/mysql/analytics.go:146-154 | After any run creator and assignee of every task are members of its team, and the orphan report is empty |
| `Membership.StepMakesNoOrphan` | internal/service/task/task.go:232-240 | Also when members were removed from outside, every orphan after a request was one before |
| `Analytics.JoinFansOut` | internal/storage/mysql/analytics.go:60-63 | In the joined table of all teams the group of a team has the product of its numbers of member and task rows, an empty side counting as one |
| `Analytics.SummaryCountsIndependently` | internal/storage/mysql/analytics.go:52-63 | The result has a row for each team, whose two numbers are the team's member rows and its task rows done in the last week, also for teams without either |
| `Analytics.SummaryMeaning` | internal/storage/mysql/analytics.go:52-63 | For each team the numbers of places in team_members of that team, and in tasks of rows of that team with status done, updated at most 604 800 000 ms ago |
| `Analytics.SevenDaysOld` | internal/storage/mysql/analytics.go:57-59 | A done task of exactly that age counts, one a millisecond older does not |
| `Analytics.RankCountsAhead` | internal/storage/mysql/analytics.go:102-105 | A row's rank is one more than the number of contributors with strictly more tasks, in whichever order ties stand |
| `Analytics.TopThreeMeaning` | internal/storage/mysql/analytics.go:95-110 | A row is returned if and only if the user created a task in the window and fewer than three users of the team created more, with that count and rank |
| `Analytics.TopContributorsMeaning` | internal/storage/mysql/analytics.go:95-110 | The same in terms of the task table: tasks of the team created at most 2 592 000 000 ms ago, counted by places |
| `Analytics.TopThreeIsNotShort` | internal/storage/mysql/analytics.go:95-110 | A team with n contributors has at least min(3, n) rows, and one of rank 1 if n is positive |
| `Analytics.PartitionExists` | internal/storage/mysql/analytics.go:102-108 | Every team's groups can be put in an order such as RANK() works through |
| `Analytics.OrphanTasksExactly` | internal/storage/mysql/analytics.go:146-154 | The report holds each task with an assignee who has no member row in the task's team, no more often than the table, and no other |
| `Limiter.LevelIsLeastRoom` | internal/middleware/ratelimit.go:27-28 | The level of a never-swept bucket is the least of the capacity and the room left in each window opened by an earlier request |
| `Limiter.AdmitIff` | internal/middleware/ratelimit.go:57-60 | A request is admitted if and only if no window ending with it and opened by an earlier request of the client would then exceed rpm plus what flowed in during it |
| `Limiter.WindowBound` | internal/middleware/ratelimit.go:27-28 | Any window of w seconds of any run holds at most rpm + floor(rpm·w/60) admissions |
| `Limiter.WindowMeaning` | internal/middleware/ratelimit.go:27-28 | The same in plain numbers: what exceeds rpm flowed in at rpm per 60 000 000 000 ns |
| `Limiter.BurstsAllGranted` | internal/middleware/ratelimit.go:27-28 | For windows up to a minute that bound is reached |
| `Limiter.TwicePerMinute` | internal/middleware/ratelimit.go:27-28 | Any minute holds at most 2·rpm admissions |
| `Limiter.TwicePerMinuteIsReached` | internal/middleware/ratelimit.go:27-28 | At every rate some minute holds 2·rpm admissions |
| `Limiter.SlidingWindowClaimIff` | internal/middleware/ratelimit.go:18-28 | "At most rpm in any window of w" is true if and only if less than one token flows in during w |
| `Limiter.ClientKeysDistinct` | internal/middleware/ratelimit.go:46-55 | Two clients share a bucket key if and only if they are the same client, signed in or not |
| `Limiter.TokenBucket.Allow` | internal/middleware/ratelimit.go:57 | One token is taken if there is one; a refused request leaves the bucket as it was |
| `Limiter.RateLimiter.GetLimiter` | internal/middleware/ratelimit.go:30-40 | The key's own bucket, or a new full one, and its time of last use becomes now |
| `Limiter.RateLimiter.RemoveIdle` | internal/middleware/ratelimit.go:74-78 | Exactly the entries idle for more than ten minutes are deleted |
| `Limiter.RateLimiter.Cleanup` | internal/middleware/ratelimit.go:72-79 | Deleting idle entries keeps the map in agreement with every client's whole past |
| `Limiter.RateLimiter.Serve` | internal/middleware/ratelimit.go:45-62 | With sweeps at any time before, the decision is the one a limiter that never forgets makes from this client's own past requests |
| `Limiter.SweptTracks` | internal/middleware/ratelimit.go:74-78 | A swept map still agrees with all pasts: what was deleted was full |
| `Limiter.ServedTracks` | internal/middleware/ratelimit.go:30-40 | A decision follows from the client's own past and keeps every other client's agreement |
| `Limiter.SweepsAreUnobservable` | internal/middleware/ratelimit.go:66-85 | In every interleaving of lookups, decisions, ticks and sweeps in which no decision comes later than the bound after its lookup, all decisions are those of a limiter that never deletes |
| `Limiter.EvictionIsUnobservableIff` | internal/middleware/ratelimit.go:57-85 | For every rate and every bound on the time between lookup and decision, all runs within the bound decide as a limiter that never deletes if and only if the rate is zero or the bound is at most 540 000 000 001 ns |
| `Limiter.StallShows` | internal/middleware/ratelimit.go:57-78 | At every positive rate, one nanosecond beyond that bound there is a run whose decisions differ |
| `Limiter.DecisionMeaning` | internal/middleware/ratelimit.go:44-62 | After any such run a request is admitted if and only if the windows of the client's own decided requests allow it |
| `Logger.Table.Copy` | pkg/slogx/options.go:39-52 | A new map with the same contents |
| `Logger.Config.Clone` | pkg/slogx/options.go:36-58 | A configuration that says the same and shares no map or slice with the original |
| `Logger.ConfigPointer.UpdateConfig` | pkg/slogx/logger.go:60-64 | The configuration in force becomes the edited old one, whatever fields, maps or slices were assigned, extended or emptied, and every configuration published before still says what it said |
| `Logger.ConfigPointer.SetLevel` | pkg/slogx/logger.go:66-69 | The configuration in force has the new threshold and says otherwise what it said |
| `Logger.PresentMeaning` | pkg/slogx/handler.go:32-37 | The context attributes are the keys that the context has, each with its value, in the order of the keys |
| `Logger.DynamicHandler.GetOrBuildCachedHandler` | pkg/slogx/handler.go:46-75 | The returned handler, cached or not, has the level, format and output of the given configuration and this handler's attributes and groups |
| `Logger.DynamicHandler.Handle` | pkg/slogx/handler.go:29-44 | The handler used has level, format and output of the configuration in force and this handler's attributes and groups; the context values that are present come in the order of the keys |
| `Logger.DynamicHandler.WithAttrs` | pkg/slogx/handler.go:78-83 | A new handler with the attributes appended in storage of its own; nothing existing changes |
| `Logger.DynamicHandler.WithGroup` | pkg/slogx/handler.go:86-91 | A new handler with the group appended in storage of its own; nothing existing changes |
| `Logger.DerivedOrderIff` | pkg/slogx/handler.go:65-70 | Attributes are qualified as they were derived if and only if none was added after a group with a name |
| `Logger.MoveIsConsistent` | pkg/slogx/handler.go:46-75 | Each step of calls that loaded the same configuration keeps the cache consistent, and a finishing call uses a handler of the configuration it loaded |
| `Logger.CallsUseTheirConfig` | pkg/slogx/handler.go:46-75 | With swaps at any moment, as long as overlapping calls loaded the same configuration, each uses a handler of the configuration it loaded |
| `Logger.SwapBetweenCallsMismatches` | pkg/slogx/handler.go:72-73 | A run with two calls around a swap after which a call uses a handler of an older configuration than it loaded |
| `Schema.Index` | scripts/genschema/main.go:240-241 | The first occurrence, or none if there is no occurrence |
| `Schema.SplicedMarkers` | scripts/genschema/main.go:240-246 | In a patched text the start marker is where it was, and the first end marker is the content's own if it has one, else the real one |
| `Schema.SpliceKeepsOutside` | scripts/genschema/main.go:246 | If the content has no end marker, everything up to the start marker and from the end marker on is unchanged |
| `Schema.LastSpliceWinsIff` | scripts/genschema/main.go:233-248 | For any two markers that cannot overlap, patching twice equals patching once with the last content if and only if the first content has no end marker |
| `Schema.LastWriteWinsIff` | scripts/genschema/main.go:233-248 | The same for the two markers of the generator |
| `Schema.MermaidERD` | scripts/genschema/main.go:199-230 | The printed text is the diagram's lines of words, joined by spaces and line breaks |
| `Schema.DiagramHasNoComment` | scripts/genschema/main.go:199-230 | If names and types have no spaces or line breaks, no diagram contains a one-word comment such as either marker |
| `Schema.GeneratorIsRepeatable` | scripts/genschema/main.go:60-72 | Generating into a README already generated gives what generating into the original gives |
| `Schema.DiagramDetermines` | scripts/genschema/main.go:203-226 | Two diagrams are equal text if and only if they show the same tables, columns, types, marks and references in the same order |
| `Schema.TableReader.MarkPKColumns` | scripts/genschema/main.go:141-150 | Exactly the columns named in the list become primary key columns |
| `Schema.TableReader.MarkUKColumn` | scripts/genschema/main.go:152-158 | Exactly the columns of that name become unique |
| `Schema.TableReader.AddFK` | scripts/genschema/main.go:160-167 | The reference is appended and exactly the columns of that name become foreign keys |
| `Schema.TableReader.ReadLines` | scripts/genschema/main.go:123-139 | The columns and references of the table are those of its lines, read in order |
| `Schema.MarksExplained` | scripts/genschema/main.go:141-167 | Each column comes from its own definition line, and has a mark if and only if a later line names it |
| `Schema.ColumnIsPrinted` | scripts/genschema/main.go:203-218 | For each column definition of a table the diagram has a row of type, name and PK,FK, PK, FK, UK or nothing, by which later lines name the column |
| `Schema.TableIsPrinted` | scripts/genschema/main.go:203-204 | Each table has its opening row in the diagram |
| `Schema.ReferenceIsPrinted` | scripts/genschema/main.go:222-226 | For each reference line of a table the diagram has a row from the referenced table to this one, labelled with the column |
| `Schema.DiagramIsFenced` | scripts/genschema/main.go:201-229 | The diagram is one fenced block |
| `Schema.KeyIsLostIff` | scripts/genschema/main.go:141-150 | A named primary key column goes unmarked if and only if all lines naming it stand before its definition |

## Left out

- HTTP handlers, routing, generated API code, metrics, request IDs and token checking: plumbing around the services.
- The email circuit breaker: its state machine is in a library; an invitation ignores its result.
- Authentication and comments: short check-then-save paths that would add only easy members.
- `ListForUser`, `GetTeamsByUser`, `SaveHistory` and the converters between bytes and UUIDs: one-step facts.
- Real MySQL, Redis and JSON: tables are sequences and maps, a cached list is the list itself; column rounding and collation are ignored.
- Logging calls, configuration loading, connection retries, shutdown and the seed script.
- Masking and removal rules of the logger: a built handler only remembers which configuration it consults.
- The generator's regular expressions and file access: reading starts from recognised lines, patching from text in memory.
- Bracket classes in glob patterns: no pattern here has one.
- Concurrent scans over one table by the analytical queries: each report is of one state of the tables.
- Sorting of the report rows of different teams: the queries state no order between them.
- TaskQuery.OrderIsForced: needs distinct creation times, because the query has no tie-break.
- AuditTrail.HistoryReplays: assumes that updates of one task do not overlap and have increasing times; AuditTrail.OverlapAuditIff and Audit.ListingsAgreeIff say exactly what holds otherwise.
- Logger.ConfigPointer.UpdateConfig: the function it takes is a list of edits to the clone (assigning any field, also with a new map or slice, and changing or deleting entries), because a Dafny method cannot take an arbitrary procedure.
- Schema.DiagramHasNoComment: names the word `||--o{`, which stands between spaces in every reference line, as the one exception.
- Schema.MermaidERD: `%q` is modelled for column names made of letters, digits and underscores, which are the only ones the expressions let through.
