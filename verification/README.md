# Model of the SSO gateway's data paths

The gateway mirrors an employee table from a remote MySQL database into Postgres and serves
it over a rate-limited HTTP API; a setup program writes its key and its configuration. This
project models the four places where that is intricate and proves what they promise.

**The incremental sync.** `SyncProtocol` is a state machine of any number of sync runs, a source
that is written meanwhile, failing statements and crashes. Each statement of `SyncKaryawan` is one
action. Upserts and the watermark read take effect at once through the connection pool; the
`sync_runs` row and the watermark are buffered in the transaction that also holds the advisory
lock. A trace is any sequence of actions; an action that is not possible in a state changes
nothing, so every statement "for all traces" covers every interleaving. `SyncSafety` proves an
invariant kept by every action, `SyncTheorems` the guarantees over whole runs, `SyncDrain` how a
backlog drains under any mix of batch sizes, `SyncUniform` what exactly is left behind with one
size, and `SyncTies` the smallest backlog that loses a row. `SyncPool` says when connections can
run out, `SyncSchedule` for which intervals the scheduler can never let that happen,
`SyncProgress` that live runs finish, and `SyncLiveness` that the backlog can then be drained.
`SyncTrace` follows a single run as a trace of the protocol. `Syncer` is the run itself,
imperatively: it is proved to compute exactly `RunResult` of its inputs and of the statements that
fail, and to be such a trace, so the theorems apply to it.

**The rate limiter.** `RateLimit` models the Redis script over counters with deadlines, with
the caller's clock read separated from the script run, over traces of any length. `Middleware`
is the handler that applies it per API key and minute.

**The list query.** `ListFilter` compiles a filter to clauses with numbered placeholders and
gives them an evaluator; `ListQuery` counts and pages the selected rows and models the endpoint's
answer, errors included; `Like` is the pattern matcher and `Decimals` the number printing that
placeholders and bucket names use. `EndToEnd` puts sync and list together: what a client is shown
of the source.

**Setup.** `Setup` models a run of the setup program as six file steps, any of which may be the
last, and histories of such runs.

`LockKey` is the hash that names the advisory lock. `Base`, `Ordering`, `Karyawan`, `VpsMysql`
and `SyncTables` hold the shared vocabulary: rows, ordered results and tables.

## What was found

- A batch that ends inside a group of rows with equal `updated_at` loses the rest of the group
  for good, because the next fetch asks for strictly later stamps. For rows that the mirror did
  not have yet, draining with one batch size is complete exactly when no full batch ends that way
  (`SyncUniform.CompleteIffNoSplitTie`); two rows with one stamp and batch size one are enough to
  lose a row (`SyncTies.TieLosesRow`).
- Overlapping runs can take all connections and starve the one that holds the lock. With the
  service's ten connections and ten-minute limit this can never happen exactly if the sync interval
  is over 75 seconds (`SyncSchedule.SafeIntervals`); the interval is taken from the configuration
  unchecked.
- When the last UPDATE of a run fails, the comment at internal/sync/sync.go:162 hopes to keep the
  watermark. In Postgres a failed statement aborts the transaction, so the COMMIT is a rollback
  and nothing is kept; the model follows Postgres.
- `itoa` prints the least 64-bit integer as a lone minus sign.
- A bucket admits at most the maximum exactly when there are no more requests than that or no
  script runs a window or more after the bucket's first one (`RateLimit.AtMostMaxIff`). A script
  that does restarts the counter of its own bucket, so one bucket can admit twice the maximum;
  with a delay under one window never more.
- The name filters are substring searches exactly for needles without `%`, `_` and backslash.
- Asking for a status is always an error. Its clause has no placeholder, but a nil is still added
  to the arguments (internal/karyawan/repo.go:118-124), and the driver, pgx version 5, refuses a
  statement unless arguments and parameters are equal in number; the endpoint answers 500 although
  docs/API.md documents the filter. All other filters are answered (`ListQuery.HandleList`).
- The response echoes a negative offset although the repository uses zero.
- Setup prefers a key from the environment to the one in the dotenv file, the opposite of its
  header comment (internal/setup/setup.go:164). With a different key there, a run stopped between
  its two renames leaves a configuration the dotenv file cannot decrypt.

## Assumptions

- A crash of a run ends its lock connection with it and leaves no upsert in flight.
- Source stamps are later than the epoch; a source write is stamped later than the committed
  watermark and than the last row of a batch in flight, and not earlier than the row it
  replaces. The source deletes no rows and renames no keys.
- Run identifiers are fresh. Each program has a pool of its own: ten connections for the service
  (internal/db/pg.go:16), and for a setup program the driver's default, which is at least four.
- A scheduled run ends within its limit, and the startup run may begin at any time before or after
  the first tick, since it is a goroutine of its own.
- The rate limiter's callers and Redis share one clock, counted in whole milliseconds. Whether
  a counter is still there in the very millisecond of its deadline is left open, per event.
- Text keys are ordered by code point, and case folding covers the ASCII letters.
- The base64 decoder of master keys is a parameter that rejects the empty text; a generated key
  is one line that it accepts. A ciphertext is tagged with the key that sealed it, and a key hash
  is part of the input.

## Model

| member | source | states |
|---|---|---|
| `VpsMysql.PendingFacts` | internal/vpsmysql/client.go:108-114 | a fetch without LIMIT returns exactly the rows stamped after the watermark, one per key, by stamp and for equal stamps by the first character in which the keys differ |
| `Ordering.LexLessIsPrecedes` | internal/karyawan/repo.go:144 | the order of keys: one is before another if and only if it ends first, or has the smaller character, at the first position where they differ |
| `VpsMysql.PendingAdvance` | internal/vpsmysql/client.go:112-113 | raising the watermark drops exactly the leading rows stamped at or before it |
| `VpsMysql.BatchTiedAfter` | internal/vpsmysql/client.go:112-114 | a batch, the rows tied behind its last row, and the rows after them make up the pending list in order |
| `VpsMysql.Client.constructor` | internal/vpsmysql/client.go:49-52 | a batch size that is not positive becomes 500 |
| `VpsMysql.Client.SetBatchSize` | internal/vpsmysql/client.go:57-62 | only a positive size replaces the batch size |
| `VpsMysql.Client.FetchKaryawanUpdatedSince` | internal/vpsmysql/client.go:116-135 | an error, or newer rows in order, as many as the batch size allows; a newer row that is left out comes after all of them, and then the batch is full |
| `Karyawan.UpsertAllEffect` | internal/karyawan/repo.go:23-50 | upserting rows with distinct keys mirrors each of them and touches no other key |
| `Karyawan.UpsertAllCopies` | internal/sync/sync.go:118-142 | after the upserts the mirror row of each source row of the batch has the same name, dates and stamp, and each text column has the text of the source column of the same name, empty for NULL |
| `Syncer.Postgres.Upsert` | internal/karyawan/repo.go:23-50 | the row stored under the key is replaced or added, and no other row changes |
| `Syncer.Postgres.ReadWatermark` | internal/sync/sync.go:202-216 | the stored watermark, instant zero when there is no row or it is NULL, or an error |
| `Syncer.Postgres.CommitTx` | internal/sync/sync.go:165 | committing makes both buffered rows visible, or none if a statement failed |
| `Syncer.Postgres.CleanupStaleRuns` | internal/sync/sync.go:222-234 | the rows of the resource that are running since before the cutoff become failed rows with a finish time and the recovery note, all others stay, and the number returned is that of the rows that changed |
| `SyncTables.CleanupIsSelectiveAndIdempotent` | internal/sync/sync.go:218-234 | cleanup changes exactly the running rows of its resource started before the cutoff, column by column as stated, and a second pass at the same cutoff changes nothing |
| `Syncer.New` | internal/sync/sync.go:37-45 | the batch size is the one given, or 500 for one that is not positive, and its source uses it too |
| `Syncer.MarkRunFailed` | internal/sync/sync.go:174-187 | the transaction is aborted exactly if it was or one of the two statements fails; otherwise run row and state row both say failed, with the cause, and the watermark is the one it was |
| `Syncer.UpsertRows` | internal/sync/sync.go:97-143 | the row loop stops at the first failing upsert, has then mirrored exactly the rows before it (and the failing one if only its acknowledgement was lost), and otherwise ends with the last row's stamp |
| `Syncer.SyncKaryawan` | internal/sync/sync.go:53-169 | a run computes exactly `RunResult` of the pending batch and the failing statements and is a trace of the protocol that leaves the lock as it was; a run without error has copied, column by column, each row of the batch it fetched, touched no other key, and stored the last stamp of the batch and the success row that counts it |
| `Syncer.RunEffect` | internal/sync/sync.go:53-187 | no error exactly when every statement succeeds; the success row, all rows and the last stamp are stored exactly when at most the acknowledgement of the commit fails, and otherwise the watermark stays; failures are recorded when the recording statements work; no running row is left |
| `SyncTrace.RunIsReachable` | internal/sync/sync.go:53-169 | a run started in a reachable state ends in a reachable state, after the run's own actions |
| `SyncSafety.UpsertInv` | internal/sync/sync.go:132-142 | an upsert, stored, refused or unacknowledged, keeps the invariant although it is visible before the commit |
| `SyncSafety.FetchInv` | internal/sync/sync.go:90-99 | the fetched batch and the rows tied behind it cover everything pending up to its last stamp |
| `SyncSafety.CommitInv` | internal/sync/sync.go:145-168 | committing, rolling back and losing the connection keep the invariant |
| `SyncSafety.WriteInv` | internal/vpsmysql/client.go:108-114 | a timely source write keeps the invariant, also while a batch is in flight |
| `SyncSafety.StepInv` | internal/sync/sync.go:53-187 | every action of every run keeps the invariant |
| `SyncTheorems.Reachable` | internal/sync/sync.go:53-187 | every reachable state, under any interleaving of runs, writes, failures and crashes, satisfies the invariant |
| `SyncTheorems.WatermarkCovers` | internal/sync/sync.go:53-169 | in every reachable state a row stamped at or before the committed watermark is in the mirror with all its current columns, or was tied behind a committed full batch |
| `SyncTheorems.SplitFreeWatermarkCovers` | internal/sync/sync.go:53-169 | when no fetch splits a tie, every row stamped at or before the watermark is in the mirror with all its current columns |
| `SyncTheorems.ExecProgresses` | internal/sync/sync.go:64-157 | over every run the watermark never falls, mirrored keys never disappear, and no mirror row gets an older source stamp |
| `SyncTheorems.MirrorFromSource` | internal/sync/sync.go:118-142 | every mirror row copies, column by column, a version the source held at its key, never newer than the current one |
| `SyncTheorems.LostIsNeverFetchedAgain` | internal/vpsmysql/client.go:112-114 | a row version lost at a split tie is in no later batch, whatever happens |
| `SyncTheorems.MutualExclusion` | internal/sync/sync.go:57-72 | at most one run is past the lock, and the watermark it read on another connection is still the committed one |
| `SyncTheorems.WatermarkAndSuccessRowTogether` | internal/sync/sync.go:145-168 | the watermark moves only together with a new success row, and a new success row brings its own watermark and row count; no failure path moves the watermark |
| `SyncTheorems.CleanupFindsNothing` | internal/sync/sync.go:57-79 | every reachable committed run row is finished, never running, so cleanup changes nothing |
| `SyncDrain.DrainBalances` | internal/vpsmysql/client.go:108-114 | for any sequence of batch sizes the rows taken, the rows tied behind a batch and the rows left partition the backlog, and the counts are those of the rows taken |
| `SyncUniform.NothingMissedIffNoSplitTie` | internal/vpsmysql/client.go:108-114 | with one batch size, draining batch by batch misses nothing if and only if no full batch ends inside a tie |
| `SyncDrain.ExecDrains` | internal/sync/sync.go:90-168 | with a quiet source, whatever runs overlap, fail, crash or differ in batch size, backlog, counts, losses and mirror are determined by the batch sizes of the successful runs in commit order |
| `SyncDrain.EveryRowAccounted` | internal/sync/sync.go:99-168 | at any time the backlog is made up of the rows the successful runs counted, the rows they lost at split ties, and the rows still pending |
| `SyncUniform.LeftBehindForever` | internal/sync/sync.go:99-143 | with one batch size, once nothing is pending, the backlog rows not mirrored are exactly those tied behind a full batch, unless mirrored before |
| `SyncUniform.CompleteIffNoSplitTie` | internal/sync/sync.go:99-143 | with one batch size, draining is complete if and only if the missed rows were mirrored before; so it is if no full batch ends inside a tie, and for rows not mirrored before only then |
| `SyncUniform.DrainsBatchByBatch` | internal/sync/sync.go:90-168 | without split ties n rows drain in exactly n/b successful runs, rounded up, and the counts of the successful runs sum to the rows taken |
| `SyncUniform.NothingLeftToCount` | internal/sync/sync.go:160-168 | with one batch size, every successful run after the backlog is drained reports zero rows |
| `SyncUniform.UniformLikeOneBatch` | internal/sync/sync.go:99-143 | with one batch size and no split tie, n/b successful runs, rounded up, leave the mirror of a single unbounded batch |
| `SyncDrain.DrainedLikeOneBatch` | internal/sync/sync.go:99-143 | for any mix of batch sizes: once nothing is pending, the successful runs counted the whole backlog if and only if nothing was lost, and then the mirror equals the one a single unbounded batch would leave |
| `SyncDrain.SplitFreeDrainsCompletely` | internal/vpsmysql/client.go:108-114 | so it is when no fetch splits a tie, whatever the batch sizes |
| `SyncDrain.CaughtUpMirrors` | internal/sync/sync.go:99-143 | whatever batch sizes the runs use, once nothing is pending every row is in the mirror with all its columns or was lost at a split tie, and all are if no fetch splits one |
| `SyncLiveness.CleanRun` | internal/sync/sync.go:53-169 | with the lock free and two connections left, a run without failures exists and succeeds |
| `SyncLiveness.CanAlwaysCatchUp` | internal/sync/sync.go:53-169 | from every state that satisfies the invariant, stuck ones included, a quiet source can be caught up with once the live runs are dead, if some pool has two connections |
| `SyncLiveness.LiveRunsThenCatchUp` | internal/sync/sync.go:53-169 | while every pool in use has a connection to spare, the live runs can all return and further runs catch up, with no crash and no failing statement on the way |
| `SyncLiveness.CatchesUpInTime` | internal/sync/sync.go:90-168 | without split ties undisturbed runs do so in n/b successful runs, rounded up, with the mirror of a single unbounded batch |
| `SyncTies.TieLosesRow` | internal/vpsmysql/client.go:112-114 | from the empty schema, two rows with one stamp and batch size one: runs catch up, the second row counts as lost, and no later run mirrors it |
| `SyncTies.LostYetMirrored` | cmd/setup/sync.go:21-32 | with mixed batch sizes a row tied behind a committed batch can be mirrored all the same, by a larger run that crashed |
| `SyncPool.NotStuckBelowCapacity` | internal/sync/sync.go:65-81 | while every pool in use has fewer live runs than connections some run can proceed |
| `SyncProgress.LiveRunsFinish` | internal/sync/sync.go:53-169 | below capacity, the steps of live runs that meet no error are bounded in number, and some sequence of them ends with every run returned |
| `SyncProgress.StopsOnlyWhenDone` | internal/sync/sync.go:53-169 | below capacity, live runs that meet no error cannot stop before all of them have returned |
| `SyncPool.StuckAtCapacity` | internal/sync/sync.go:65-81 | for every capacity there is a reachable state in which that many runs are stuck |
| `SyncSchedule.OverlapBound` | cmd/sync/main.go:57-73 | runs ended within T and started every I, plus the startup run: at most T/I + 2 are alive |
| `SyncSchedule.NeverStuckIff` | cmd/sync/main.go:57-73 | for every interval, limit and capacity: no reachable state on schedule is stuck if and only if T/I + 2 is below the number of connections |
| `SyncSchedule.SafeIntervals` | cmd/sync/main.go:57-73 | with ten connections and ten minutes exactly the intervals over 75 seconds are safe |
| `SyncSchedule.DefaultScheduleNeverStuck` | cmd/sync/main.go:63-93 | with ten connections, ten minutes and five-minute ticks at most four of the service's runs overlap, and neither they nor setup programs with their own pools are stuck |
| `LockKey.HashtextSyncResource` | internal/sync/sync.go:193-200 | the loop computes the lock key that the next two rows characterise |
| `LockKey.LockKeyByByte` | internal/sync/sync.go:193-200 | the key of the empty name is 2166136261, and each further byte is xored in and the result multiplied by 16777619 modulo 2 to the 32 |
| `LockKey.XorBits` | internal/sync/sync.go:196 | a bit of the xor is set if and only if exactly one operand has it |
| `LockKey.MixInjective` | internal/sync/sync.go:196-197 | a round maps different states, and different bytes, to different states |
| `LockKey.OneByteOneKey` | internal/sync/sync.go:64-64 | changing exactly one byte of a resource name always changes its lock key |
| `RateLimit.RedisKeyInjective` | internal/redisx/ratelimit.go:52 | different API keys or buckets never share a counter |
| `RateLimit.EveryCounterHasDeadline` | internal/redisx/ratelimit.go:13-23 | after any trace every counter has a deadline |
| `RateLimit.CountsAreOfOneBucket` | internal/redisx/ratelimit.go:51-68 | requests and admitted requests counted per Redis key are those whose API key and clock reading divided by the window are the ones of that bucket |
| `RateLimit.AdmittedUnderDelay` | internal/redisx/ratelimit.go:47-69 | with a delay of at most d a bucket admits at most max times the lifetimes its counter can have |
| `RateLimit.AtMostTwoLifetimes` | internal/redisx/ratelimit.go:47-69 | with a delay under one window a bucket admits at most 2 * max over any trace |
| `RateLimit.TwoLifetimesHappen` | internal/redisx/ratelimit.go:17-23 | that bound is reached for every maximum and every window of at least two milliseconds |
| `RateLimit.AtMostMaxIff` | internal/redisx/ratelimit.go:47-69 | over any trace a bucket admits at most max, and then exactly min(n, max), if and only if max is not positive, n is at most max, or no script runs a window or more after the bucket's first |
| `RateLimit.RestartedIffLate` | internal/redisx/ratelimit.go:17-23 | a counter is found expired and started anew if and only if some script runs that late |
| `RateLimit.ReplyIsOrdinal` | internal/redisx/ratelimit.go:17-23 | with scripts inside their bucket the reply is the request's ordinal among those of its bucket |
| `RateLimit.FirstMaxAdmitted` | internal/redisx/ratelimit.go:47-69 | exactly min(n, max) of n requests are admitted, namely the first in script order |
| `RateLimit.TwoLiveCounters` | internal/redisx/ratelimit.go:17-23 | live counters of an API key belong to the current or the previous bucket |
| `RateLimit.SpanBound` | internal/redisx/ratelimit.go:51-68 | the requests of a key allowed by scripts in a span of L ms are at most max * (L/W rounded up + 1) |
| `RateLimit.Limiter.RunScript` | internal/redisx/ratelimit.go:17-23 | the counter that is still there counts one more, a first count sets the deadline one window later and a later one keeps it, no other counter changes, and the reply is the count |
| `RateLimit.Limiter.Allow` | internal/redisx/ratelimit.go:47-69 | which of allowed, denied, error and division by zero happens; with a window given in nanoseconds the bucket is the clock divided by its whole milliseconds, which are also the time to the deadline, and any trace that led to the counters goes on with this call |
| `Middleware.RateLimiter.Handle` | internal/api/middleware.go:69-93 | a request without key id or without an answer from Redis passes; with scripts run in order and within the minute of their clock reading, any other passes if and only if fewer than the maximum of earlier requests of the same key were in the same calendar minute |
| `Middleware.ReplyInMinute` | internal/api/middleware.go:80 | the count Redis answers is one more than the earlier requests of the same key in the same calendar minute |
| `Decimals.ParseInvertsDecimal` | internal/karyawan/repo.go:170-190 | canonical decimal notation is inverted by a parser |
| `Decimals.Int64HasNineteenDigits` | internal/karyawan/repo.go:178 | every non-negative 64-bit integer fits in nineteen of the twenty bytes |
| `Decimals.FillDigits` | internal/karyawan/repo.go:178-184 | the loop leaves the digits at the end of the buffer and one byte free for the sign |
| `Decimals.Itoa` | internal/karyawan/repo.go:170-190 | the text parses back to the number for every 64-bit integer but the least, which prints as a lone minus sign |
| `Like.PlainIsContains` | internal/karyawan/repo.go:106-114 | for needles without wildcards or escapes the wrapped pattern matches exactly the texts that contain the needle up to case |
| `Like.PlainIsFound` | internal/karyawan/repo.go:106-114 | for needles without wildcards or escapes the wrapped pattern matches exactly the texts in which the needle occurs at some position, where an ASCII letter equals its other case |
| `Like.MatchesInParts` | internal/karyawan/repo.go:106-114 | two patterns in a row match exactly the texts that split into a match of each |
| `Like.OneElement` | internal/karyawan/repo.go:106-114 | what the empty pattern, a percent sign, an underscore, an escaped character and a plain character match alone |
| `Like.SubstringIffPlain` | docs/API.md:101-103 | the documented substring search is what the filter does, for all texts, if and only if the needle has no percent sign, underscore or backslash |
| `ListFilter.RenderInjective` | internal/karyawan/repo.go:96-124 | a clause can be read back from its text, placeholder number included |
| `ListFilter.BuildWhere` | internal/karyawan/repo.go:92-124 | one clause per set field, with the column, operator and argument of that field in words; each placeholder names the value it was built for, the clauses select exactly the rows satisfying the set fields, and arguments exceed placeholders by one nil exactly when a status is asked for |
| `ListFilter.SentIffNoStatus` | internal/karyawan/repo.go:118-134 | the driver sends a filter's statement if and only if no status is asked for |
| `ListQuery.SelectedFacts` | internal/karyawan/repo.go:138-146 | the result is the rows that satisfy the filter, each once, by the first character in which their keys differ |
| `ListQuery.Repo.List` | internal/karyawan/repo.go:82-168 | an error exactly if a status is asked for or a statement fails; otherwise total and page for every filter; LIMIT and OFFSET are numbered for their values, 50 for a limit outside 1 to 500 and 0 for a negative offset |
| `ListQuery.PagesArePrefix` | internal/karyawan/repo.go:138-146 | the first k pages concatenate to the first k * l rows |
| `ListQuery.HandleList` | internal/api/handlers.go:80-115 | an answer exactly if no status is asked for and the database works; it shows, field by field, the selected rows from the offset on, as many as the limit allows, where NULL text is empty; the limit echoed is the one used, and the offset echoed is the one asked for |
| `ListQuery.ActiveIsAnError` | internal/api/handlers.go:95-104 | asking for active employees alone is an error whatever the table holds |
| `ListQuery.PagesCoverList` | docs/API.md:150-160 | without a status filter the pages at the echoed limit make up the whole list without gap or repeat, in total/limit pages rounded up and not in fewer; with one the client gets an error |
| `ListQuery.SelectsAsDocumented` | docs/API.md:99-107 | for plain needles the compiled clauses select exactly the rows the documentation describes |
| `ListQuery.ClientGetsDocumentedRows` | docs/API.md:99-107 | for plain needles a client that pages to the end is shown, field by field, exactly the documented rows if no status is asked for, and gets an error if one is |
| `EndToEnd.CaughtUpIsCopy` | internal/sync/sync.go:99-143 | when nothing is pending and no fetch split a tie, mirror and source have the same keys and each mirror row copies its source row |
| `EndToEnd.ClientSeesSource` | internal/sync/sync.go:99-143 | from the source to the client, over every trace of runs, writes, failures and crashes: when nothing is pending and no fetch split a tie, a client that pages to the end is shown field by field exactly the source rows that match its filter, each once and in key order |
| `Setup.SplitLines` | internal/setup/setup.go:145-158 | the loop yields the lines of the text |
| `Setup.ReadMasterKeyFromDotenv` | internal/setup/setup.go:126-143 | the value of the first whole line of the text that assigns the key, the empty text if no line does or there is no file, or an error |
| `Setup.DotenvRoundTrip` | internal/setup/setup.go:301-312 | a key that is written is read back if and only if it has no newline |
| `Setup.ReplaceOrAppend` | internal/setup/setup.go:260-277 | the new entry stands in the place of the first default entry, or at the end without one, and every other position is as before |
| `Setup.OperatorsInOrder` | internal/setup/setup.go:260-261 | the keys called others below are those with an id other than default, in the order of the list |
| `Setup.WithDefaultKeepsOthers` | internal/setup/setup.go:260-277 | other keys keep values and order; the list grows by one only if there was no default key |
| `Setup.Host.WriteDotenv` | internal/setup/setup.go:301-312 | the dotenv file and its temporary file after each number of steps |
| `Setup.Host.SaveConfig` | internal/store/config.go:73-86 | the configuration file and its temporary file after each number of steps |
| `Setup.Host.RunPromptFlow` | internal/setup/setup.go:170-299 | the disk after a run stopped at any step; nothing is written without a connection; a run that succeeds leaves the answers, the new key hash as first default entry, the other keys and settings as they were, the password sealed with the key taken, and that key in the dotenv file, taken from the environment first, then from the file, then fresh |
| `Setup.CrashSafeIffKeySettled` | internal/setup/setup.go:288-296 | from a consistent disk every stopping point is consistent if and only if the chosen key reads back as itself and is the key an existing configuration was sealed with |
| `Setup.CrashSafeIffSameKey` | internal/setup/setup.go:221-296 | for a chosen key of one line: if and only if there is no configuration yet or the chosen key decodes as the dotenv key does |
| `Setup.RerunsStayConsistent` | internal/setup/setup.go:221-299 | over any number of ordinary runs stopped anywhere the configuration is absent or decryptable, and a key once written never changes |
| `Setup.OtherEnvironmentKeyUnsafe` | internal/setup/setup.go:225-230 | with another key in the environment a stopped run can leave an undecryptable configuration |
| `Setup.RerunsKeepKeys` | internal/setup/setup.go:245-277 | over any number of runs that load the configuration other keys keep values and order, and the list grows by at most one |

## Left out

- Syncer.SyncKaryawan: describes a run during which no other run or source write takes a step; a run that gives up waiting is one whose lock statement fails, and runs that wait and then go on, or overlap, are traces of `SyncProtocol`. One value stands for all clock readings after the start, and error texts name the failing step without the wrapped cause.
- SyncUniform.LeftBehindForever: takes one batch size for all runs, because the exact account of what is not mirrored is false for mixed ones: a run with a larger batch can upsert a row of the tie and then fail, so the row is lost to a later run with a smaller batch and mirrored nevertheless (`SyncTies.LostYetMirrored`). What holds for any mix is in `SyncDrain`.
- Syncer.Postgres.Upsert: does not model `raw_payload` and `synced_at`, which no modelled decision reads; marshalling errors behave like a refused upsert.
- SyncSafety.WriteInv: assumes timely source stamps, as listed above; a write stamped in the past is never fetched.
- RateLimit.FirstMaxAdmitted: counts the replies of the script; a request whose reply is lost is counted by the script and refused to its caller.
- ListFilter.BuildWhere: joining the clause texts with AND is taken as their conjunction.
- ListQuery.HandleList: dates are not formatted, and failures of the two statements are inputs.
- Like.SubstringIffPlain: does not model case folding beyond ASCII.
- Setup.Host.RunPromptFlow: prompts, key generation, encryption and YAML are parameters; the stopping point stands for crashes and write errors alike.
- LockKey.OneByteOneKey: names that differ in several bytes may collide; the code does not promise otherwise.
- A run that survives the loss of its lock connection, clock skew between hosts, source deletes and key renames: the code does not handle them.
- HTTP routing, JSON, logging, metrics, signals, authentication, drivers, migrations and deployment files: plumbing without such properties.
