# michelangelo core, modelled in Dafny

This project models the core of the Go library `michelangelo`:

- **The compensation engine** (`introspection/compense`). A task is stored as a row of the `compensation_task` table. It is inserted already leased to its creator, run at once in a sandbox, and then finalized: on success the row is deleted; on failure the error is recorded and the lease released. A periodic sweep (`Executes`) claims up to `limit` rows of a group, oldest first. A row is eligible when its lease has expired and it has no locker. Claiming stamps the row with a fresh locker and a new expiry and increments `Retries`. The sweep then runs and finalizes each claimed task.
- **The segment-cached ID generator** (`introspection/generate`). The `idrecord` table holds, per name, the high-water mark the database has handed out. Redis holds, per name, a block start (`source`) and a cursor (`num`). A Take normally advances the cursor inside the block. When the block is exhausted, it takes the next `maxCacheStep` values from the database under a per-name lock.
- **Small helpers.** These are modulo sharding, the `[code]msg` exception with its error codes, the compensation options, and the task interfaces of `dependencies`.

Modules, one per source file or concern:

- `Base`: Option, Result, the source's integer widths, and Go time arithmetic.
- `Decimal`: Go's `%d`.
- `Exceptions`, `ExCodes`, `Modulo`.
- `Dependencies`: `ITasker`, `DefaultTask`, and the `GetParams` check.
- `Tasks`: the `Task` row.
- `TaskTable`: claim and finalize as operations on the table.
- `Compensation`: the `Compensation` class with its methods, and the sweep specification.
- `CompensationOption`.
- `IdScripts`: the SQL upsert and the two Lua scripts.
- `GenerateSpec`: the generator as pure transitions.
- `GenerateLemmas`: the generator's invariants.
- `Generate`: the `Generator` class, proved equal to `GenerateSpec` under the refill policy it is built with (`AsWritten`, the source's SETNX cursor, or `SkipGap`, the corrected one).

Conventions:

- Instants are Unix nanoseconds and durations are nanoseconds, as in Go's `time`. `Unix` floors to seconds.
- Whatever the source reads from the outside world is a parameter: `time.Now()`, `uuid`, store failures (`fault`), the handler's outcome (`Attempt`), whether the generator's lock timed out, and the JSON decoder.
- Every store failure leaves the store unchanged.

On a failed run, `recordLastError` updates the columns `ExecTime`, `LastError` and `Locker` from a bean whose `Locker` is empty. The row's locker is therefore cleared, which releases the lease for the next sweep (`introspection/compense/compensation.go:240-244`). `TaskTable.FailureReleasesLease` states this.

## Model

| member | source | states |
|---|---|---|
| Base.Unix | introspection/compense/po_task.go:84-93 | `time.Unix()` of an instant is its whole seconds rounded down: s·1e9 ≤ t < (s+1)·1e9 |
| Base.TruncDiv | introspection/compense/compensation.go:150 | Go's integer division truncates toward zero: the bounds on the quotient for non-negative and for negative dividends (`Duration.Milliseconds`) |
| Decimal.Digits | exception/exception.go:23 | the decimal digits of a natural are non-empty digits without a leading zero |
| Decimal.Format | exception/exception.go:23 | `%d` of an integer: a leading '-' exactly for negatives, digits otherwise |
| Decimal.DigitsValueOfDigits | exception/exception.go:23 | reading back the digits of n gives n |
| Decimal.ParseFormat | exception/exception.go:23 | `%d` is injective: parsing the formatted integer gives it back |
| Exceptions.UnrenderRender | exception/exception.go:22-24 | the text "[code]msg" determines both code and message |
| Exceptions.IndexOf | exception/exception.go:23 | the first occurrence of a character, or none |
| Exceptions.IndexOfAfterPrefix | exception/exception.go:23 | after a prefix free of ']' the first ']' is the one that closes the code |
| Exceptions.Exception.New | exception/exception.go:62-67 | New stores code and message |
| Exceptions.Exception.NewByErr | exception/exception.go:55-60 | NewByErr stores the code and the error's text |
| Exceptions.Exception.Error | exception/exception.go:22-24 | Error renders "[code]msg", which decodes back to this exception's code and message |
| Exceptions.Exception.Code | exception/exception.go:26-28 | the code returned is the one the rendered text "[code]msg" decodes to, with this exception's message |
| Exceptions.Exception.WithCode | exception/exception.go:30-33 | sets the code, keeps the message, returns the same object |
| Exceptions.Exception.WithExtendMsg | exception/exception.go:35-38 | appends "," and the extension to the message, keeps the code, returns the same object |
| Exceptions.Exception.ToError | exception/exception.go:40-42 | returns the same object |
| Exceptions.Exception.WithError | exception/exception.go:44-49 | a non-nil error replaces the message, a nil one changes nothing; code kept, same object |
| Exceptions.Exception.WithMsg | exception/exception.go:50-53 | replaces the message, keeps the code, returns the same object |
| ExCodes.ExCode.ToNum | excode/code.go:7-9 | the int32 of a code is the code itself |
| ExCodes.ExCode.ToEx | excode/code.go:11-13 | a fresh exception with this code and message, rendering as "[code]msg" |
| ExCodes.ToExIndependent | excode/code.go:11-13 | two exceptions made by ToEx are distinct objects: changing one leaves the other as it was |
| ExCodes.UserNoFoundText | excode/code_user.go:5 | UserNoFound.ToEx("x") renders as "[2001]x" |
| Modulo.Sharding.GetShardIndex | distributed/hash/modulo/modulo.go:11-13 | for Len > 0, the index is below Len and is id's remainder: (id / Len)·Len + index = id |
| Modulo.New | distributed/hash/modulo/modulo.go:16-20 | New keeps Len unchanged |
| Modulo.ShardExample | distributed/hash/modulo/modulo.go:11-13 | with 3 shards, id 10 goes to shard 1 |
| Dependencies.DecodeParams | dependencies/compensation.go:65-75 | GetParams succeeds exactly when Args decodes to a non-empty object, whose fields are then the result; malformed JSON gives the decoder's error; an empty object gives "params not enough" |
| Dependencies.DefaultTask.AsTasker | dependencies/compensation.go:57-91 | the ITasker view of a DefaultTask reads its ID, Group, Name, Args, Deadline and Owner |
| Tasks.Task.GetTimeout | introspection/compense/po_task.go:55-61 | a whole number of seconds, positive exactly when the lease expires after now, and then now + timeout = LockExpire |
| Tasks.Task.GetParams | introspection/compense/po_task.go:43-53 | as DecodeParams: success exactly for a non-empty object; an empty object gives "params not enough" |
| Tasks.Task.AsTasker | introspection/compense/po_task.go:31-41 | the ITasker view: Owner is the Locker and Deadline is LockExpire (lines 63-69, 79-81) |
| Tasks.Task.AsOutTasker | introspection/compense/po_task.go:71-77 | the IOutTasker view adds LastError and Retries |
| Tasks.NewTask | introspection/compense/po_task.go:83-96 | fresh Id and Locker; Retries 0; TimeStamp is now in seconds; LockExpire is the second of now + margin + timeout |
| Tasks.NewTaskNotClaimable | introspection/compense/po_task.go:83-96 | a new task holds a non-empty locker, so no sweep can claim it before it is finalized |
| TaskTable.ApplyClaim | introspection/compense/compensation.go:219-224 | the claiming UPDATE: claimed rows get the new locker, the new LockExpire and Retries + 1; other rows are unchanged; no row appears or disappears |
| TaskTable.Select | introspection/compense/compensation.go:229 | the read-back by locker holds exactly the rows that locker owns, unchanged |
| TaskTable.RecordError | introspection/compense/compensation.go:240-244 | on a row this locker owns: LastError and ExecTime written, Locker cleared; otherwise nothing changes; other rows and the key set are kept |
| TaskTable.DeleteOwned | introspection/compense/compensation.go:246-250 | removes exactly the row when this locker owns it, else nothing; remaining rows unchanged |
| TaskTable.Finalize | introspection/compense/compensation.go:176-181 | other rows are kept; a row the locker does not own is untouched; an owned row survives exactly when the run failed |
| TaskTable.ChooseClaim | introspection/compense/compensation.go:218-224 | the rows the claiming UPDATE touches: only eligible rows (group, lease expired, no locker), min(limit, #eligible) of them, and none left out that is older than one taken |
| TaskTable.OldestExists | introspection/compense/compensation.go:221 | every non-empty set of rows has an oldest one by TimeStamp |
| TaskTable.ClaimEffect | introspection/compense/compensation.go:218-224 | claimed rows get the locker, the new LockExpire and Retries + 1, all other columns kept; unclaimed rows unchanged |
| TaskTable.ClaimsExclusive | introspection/compense/compensation.go:218-224 | two successive claims never share a row |
| TaskTable.SelectIsClaim | introspection/compense/compensation.go:229 | reading back by the new locker yields exactly the claimed rows, as the claim left them |
| TaskTable.ClaimTakesAllWhenFew | introspection/compense/compensation.go:222 | when no more rows are eligible than the limit, the claim takes all of them |
| TaskTable.FinalizeEffect | introspection/compense/compensation.go:176-181 | finalize by the owning locker deletes on success and records ExecTime/LastError on failure; with another locker it changes nothing (lines 240-250) |
| TaskTable.FailureReleasesLease | introspection/compense/compensation.go:240-244 | after a recorded failure the row's locker is empty and everything but ExecTime and LastError is kept, so the row is eligible again once its lease expires |
| Compensation.Sandbox | introspection/compense/compensation.go:133-141 | a registered handler's outcome is observed; an unregistered name runs nothing |
| Compensation.ExecError | introspection/compense/compensation.go:144-151 | execute's error: none for success or an unregistered name, the handler's error, "panic …" for a panic, "timeout Nms" on timeout |
| Compensation.SettleStep | introspection/compense/compensation.go:101-112 | finalizing one more task of a sweep extends the settled set by its id, so the order in which the goroutines finish does not matter |
| Compensation.SweepFate | introspection/compense/compensation.go:93-114 | after a sweep, each run task is deleted on success or holds its error with its locker cleared; other rows are as the claim left them |
| Compensation.ExecuteFate | introspection/compense/compensation.go:59-67 | a direct Execute leaves no row after success and the task with its error and a cleared locker after failure |
| Compensation.FailedTaskRetriedOnce | introspection/compense/compensation.go:93-114 | a task whose direct run failed is claimed by the next sweep once its lease expires; its Retries becomes exactly 1, and a second failure keeps its Name and Args |
| Compensation.Compensation.constructor | introspection/compense/compensation_option.go:99 | `&Compensation{}`: every field has its zero value |
| Compensation.Compensation.SetNewAsyncCtx | introspection/compense/compensation.go:38-41 | replaces only newAsyncCtx and reports no error |
| Compensation.Compensation.SetExecCallBack | introspection/compense/compensation.go:43-46 | replaces only execCallBack and reports no error |
| Compensation.Compensation.Register | introspection/compense/compensation.go:48-57 | a nil registry is created; a name already registered is refused with "<name> func has registed" and keeps its handler; otherwise the handler is added |
| Compensation.Compensation.Add | introspection/compense/compensation.go:189-199 | inserts the row (1 row) unless the Id exists (duplicate-key error) or the store fails; then nothing changes |
| Compensation.Compensation.QueryByType | introspection/compense/compensation.go:201-238 | on success the table is the claim applied to a valid choice of rows, and the result is exactly the claimed rows; a failure or a negative limit leaves the table unchanged |
| Compensation.Compensation.Tasks | introspection/compense/compensation.go:154-165 | claims with LockExpire = second of now + margin + timeout, eligibility judged at now |
| Compensation.Compensation.RecordLastError | introspection/compense/compensation.go:240-244 | as RecordError: only the row with that Id and locker changes |
| Compensation.Compensation.Delete | introspection/compense/compensation.go:246-250 | removes the row only if the Id and locker match; reports the count |
| Compensation.Compensation.After | introspection/compense/compensation.go:176-181 | deletes on success and records the error on failure, for the task's own locker |
| Compensation.Compensation.RunAndFinalize | introspection/compense/compensation.go:116-152 | execute: the returned error is the outcome's verdict and the table is finalized with it |
| Compensation.Compensation.Execute | introspection/compense/compensation.go:59-67 | returns the new task; a failed insert returns its error without running; otherwise the task is run and finalized |
| Compensation.Compensation.ExecuteAsync | introspection/compense/compensation.go:68-79 | inserts the task and returns without the run's result; a failed insert returns the store's error (or the duplicate-key error) and changes nothing; a nil context factory panics after the insert |
| Compensation.Compensation.TaskByID | introspection/compense/compensation.go:81-91 | the row with that Id, nil with no error if absent, the store's error if it fails |
| Compensation.Compensation.SettleBatch | introspection/compense/compensation.go:101-112 | running and finalizing every claimed task gives the table Settle describes |
| Compensation.Compensation.Executes | introspection/compense/compensation.go:93-114 | a claim error is returned; an empty claim returns nil; a nil context factory panics after claiming; otherwise every claimed task is run and finalized and nil is returned |
| CompensationOption.ApplyTo | introspection/compense/compensation_option.go:38-90 | each With* option sets its own field and no other |
| CompensationOption.ApplyAllAppend | introspection/compense/compensation_option.go:98-104 | applying a + b is applying a, then b |
| CompensationOption.ApplyAllKeeps | introspection/compense/compensation_option.go:98-104 | a field stays as set while no later option sets it |
| CompensationOption.LastWins | introspection/compense/compensation_option.go:98-104 | of several options setting one field, the last one wins |
| CompensationOption.UnsetFieldKeepsZero | introspection/compense/compensation_option.go:98-104 | with no WithMargin the margin stays 0 |
| CompensationOption.Apply | introspection/compense/compensation_option.go:28-30 | apply changes the compensation as ApplyTo says |
| CompensationOption.NewCompensation | introspection/compense/compensation_option.go:98-104 | a fresh compensation whose fields are the options folded over the zero value in order |
| CompensationOption.RegisterAfterWithFuncMap | introspection/compense/compensation_option.go:62-66 | a name present in the map given to WithFuncMap cannot be registered again |
| IdScripts.InOrUp | introspection/generate/consts.go:9 | the upsert inserts (name, step) or adds step to CurValue; other rows unchanged |
| IdScripts.InOrUpMonotone | introspection/generate/consts.go:9 | with step ≥ 0 no CurValue decreases |
| IdScripts.StInc | introspection/generate/consts.go:10 | the cursor grows by step and "source,num" is returned exactly when source and cursor exist and num + step ≤ source + max; a missing cursor under an existing source is a script error; otherwise nothing changes and -1 is returned |
| IdScripts.StIncKeepsBound | introspection/generate/consts.go:10 | LuaStInc never takes num past source + max |
| IdScripts.BuildSource | introspection/generate/consts.go:11-19 | the source is kept if it is already ≥ start, else set to start, so it never decreases |
| IdScripts.SetNX | introspection/generate/generater.go:197 | the key is set only if absent |
| GenerateSpec.EffectiveMaxCacheStep | introspection/generate/generater.go:26-39 | maxCacheStep is the argument when positive, else 10000 |
| GenerateSpec.BuildKey | introspection/generate/generater.go:261-263 | prefix, name, ':' and suffix, in that order |
| GenerateSpec.BuildKeyInjective | introspection/generate/generater.go:261-263 | a built key determines its name and whether it is the source or the num key |
| GenerateSpec.SourceNumDistinct | introspection/generate/generater.go:175 | a name's source and num keys differ |
| GenerateSpec.DbIncrease | introspection/generate/generater.go:220-239 | returns the CurValue after the upsert: step for a new name, old + step otherwise; a failure rolls back |
| GenerateSpec.CacheIncrease | introspection/generate/generater.go:173-185 | only the cursor key changes; a script error exactly for a source without a cursor |
| GenerateSpec.CacheBuildSource | introspection/generate/generater.go:187-202 | afterwards source and cursor exist and the source is ≥ start; other keys untouched |
| GenerateSpec.IncreaseLocked | introspection/generate/generater.go:130-171 | the locked refill touches only the name's row and its two keys |
| GenerateSpec.Take | introspection/generate/generater.go:80-116 | with the cache off or step ≥ maxCacheStep: the DB value after adding step, cache untouched, and a DB failure changes nothing (lines 82-89); only the name's row and keys change |
| GenerateSpec.Cursor | introspection/generate/generater.go:118-124 | the cursor's value, or redis' nil error when it is absent (lines 204-214) |
| GenerateLemmas.EmptyStoresCoherent | introspection/generate/generater.go:80-116 | empty stores satisfy the generator's invariant |
| GenerateLemmas.CacheIncreaseStep | introspection/generate/generater.go:173-185 | on a coherent state the increment never errors, keeps the invariant, and either changes nothing (-1) or moves the cursor by step and returns it |
| GenerateLemmas.RefillBlock | introspection/generate/generater.go:140-156 | a refill raises the DB value by maxCacheStep and makes the old high-water mark the new source: the new block was never handed out by the database; the invariant holds afterwards |
| GenerateLemmas.IncreaseLockedStep | introspection/generate/generater.go:130-171 | the locked path keeps the invariant and, with a working DB, returns the new cursor |
| GenerateLemmas.TakeKeepsCoherent | introspection/generate/generater.go:80-116 | every Take, faults and lock timeouts included, keeps num ≤ source + max ≤ DB value |
| GenerateLemmas.TakeAdvancesCursor | introspection/generate/generater.go:80-116 | a cache-mode Take returns the new cursor, one step past the old one whenever the block has room or the refill keeps the cursor |
| GenerateLemmas.TakeManyCursor | introspection/generate/generater_test.go:79-110 | after n cache-mode Takes of size s the cursor is start + n·s |
| GenerateLemmas.CacheIncreaseFresh | introspection/generate/generater.go:173-185 | a cursor move reserves values no earlier Take holds |
| GenerateLemmas.RefillSafe | introspection/generate/generater.go:140-156 | the corrected refill keeps the no-overlap invariant |
| GenerateLemmas.IncreaseLockedFresh | introspection/generate/generater.go:130-171 | the locked path keeps the no-overlap invariant and returns a fresh value |
| GenerateLemmas.SafeShrinks | introspection/generate/generater.go:80-116 | the no-overlap invariant holds for any subset of the issued values |
| GenerateLemmas.TakeNeverRepeats | introspection/generate/generater.go:80-171 | with the corrected refill no two Takes reserve a common value, for any mix of paths, faults and timeouts; as written, the same holds while every Take goes through the cache |
| GenerateLemmas.AsWrittenRepeats | introspection/generate/generater.go:197 | as written, five Takes with maxCacheStep 3 return 1, 6, 3, 5, 6: 6 twice |
| GenerateLemmas.SkipGapDistinct | introspection/generate/generater.go:187-202 | with the corrected refill the same Takes return 1, 6, 3, 8, 9 |
| Generate.Generator.constructor | introspection/generate/generater.go:26-39 | NewGenerator's generator: given flags and prefix, maxCacheStep defaulted to 10000; the refill policy is AsWritten for the source's behaviour, SkipGap for the corrected one |
| Generate.Generator.ExecInOrUp | introspection/generate/generater.go:229 | runs the upsert on the table |
| Generate.Generator.EvalStInc | introspection/generate/consts.go:10 | runs LuaStInc step by step, with StInc's effect |
| Generate.Generator.EvalBuildSource | introspection/generate/consts.go:11-19 | runs LuaBuildSource, with BuildSource's effect |
| Generate.Generator.ExecSetNX | introspection/generate/generater.go:197 | runs SETNX on the cursor key, with SetNX's effect |
| Generate.Generator.DbIncrease | introspection/generate/generater.go:220-239 | the transaction has DbIncrease's effect and result |
| Generate.Generator.CacheIncrease | introspection/generate/generater.go:173-185 | has CacheIncrease's effect; "-1,-1" is read as -1 |
| Generate.Generator.CacheBuildSource | introspection/generate/generater.go:187-202 | installs the block; the cursor is written with SETNX under AsWritten and moved past a gap under SkipGap |
| Generate.Generator.Increase | introspection/generate/generater.go:130-171 | the locked closure, with IncreaseLocked's effect under the generator's policy |
| Generate.Generator.Take | introspection/generate/generater.go:80-116 | Take's effect and result under the generator's policy: with SkipGap never a repeated value (TakeNeverRepeats), with AsWritten the repeat of AsWrittenRepeats; a nil from the lock fails with "Generator:key[k]increase result is err" |
| Generate.Generator.Cursor | introspection/generate/generater.go:118-124 | the cursor or redis' nil error |

## Left out

- The generator's per-name lock (`LockInvoke`) and `FuncWithTimeout`/`TakeWithTimeout` are not modelled as code. The locked closure runs atomically. A timeout is a parameter: the closure's effects stand and its result is dropped. Goroutines, channels and the growing mutex map are not modelled. Nor is what follows a timeout in `LockInvoke` (`introspection/generate/generater.go:279-293`): the deferred `close(ch)` and `Unlock` run at once, so the closure may overlap the next holder of the lock, and when it finishes its send on the closed channel panics and crashes the process.
- Concurrency in the compensation engine is not modelled: goroutines, `recover`, the `WaitGroup`, and, after `execute` times out, the handler goroutine's late send on the unbuffered `ch` or `errCh`, which nobody receives, so that goroutine blocks forever and leaks (`introspection/compense/compensation.go:125-150`). A run is an `Attempt` (outcome, finish time, store fault). The tasks of a sweep are finalized one after another; `SettleStep` shows the order does not matter.
- ExecuteAsync: the detached run is not modelled; only the insert and the returned values are.
- I/O is left out: the xorm/MySQL and go-redis clients, `SetDB`'s schema sync, `Exec`'s session plumbing, `introspection/generate/cache.go`, and logging. The stores are maps.
- Connection errors on Redis are not modelled, and neither are non-numeric Redis values.
- The `execCallBack` notifications (`notify`) have no visible effect and are dropped. So is the unused `cache` field of Compensation.
- `time.Now`, `uuid` and JSON decoding are parameters.
- Compensation.Compensation.QueryByType: the ordering and LIMIT semantics of the claiming UPDATE are stated as a valid claim (eligible, oldest first, min(limit, #eligible)), not as SQL. A negative limit is assumed to be rejected by the store. A failure of the read-back after the UPDATE is a rollback; the partial result Go returns with that error is not modelled.
- Compensation.Compensation.Add: models one task; `add` is variadic but is only called with one.
- Exceptions.Exception.NewByErr: requires a non-nil error; with nil, `e.Error()` panics in Go.
- Compensation.Compensation.Add / QueryByType / Tasks / RecordLastError / Delete / After / RunAndFinalize / Execute / ExecuteAsync / TaskByID / SettleBatch / Executes: require a database (`db != null`); a Go `Compensation` built without `WithDB` panics with a nil dereference at `r.db.NewSession()` (`introspection/compense/compensation.go:82,168,202`), which the model does not represent.
- Column widths are not modelled (`introspection/compense/po_task.go:15-22`: `Id` and `Locker` varchar(64), `Name` varchar(32), `LastError` varchar(255)). MySQL truncates or rejects a longer value; a rejected `recordLastError` leaves the row holding its locker. TaskTable.FinalizeEffect and Compensation.ExecuteFate store the error text in full.
- Modulo.Sharding.GetShardIndex: requires Len > 0; Len = 0 is an integer division by zero.
- Wrap-around is not modelled for int64 counters, Duration overflow or `strconv.Itoa(int(step))`. Integers are unbounded.
- The Go map passed to `WithFuncMap` is shared with the caller, so Register writes into it. Aliasing of that map is not modelled.
- `Cursors`, `cacheCursors`, `dbCursors` and `dbCursor` are stubs or unused and are left out.
- `Take`'s `result == nil` branch is unreachable, because cacheIncrease never returns nil without an error, and is left out.
- A Redis cursor value that is not a number (Cursor's parse error) is left out.
- `DefaultTask.GetParams` is `Dependencies.DecodeParams`, which carries its contract.

## Findings

| source | as written | input that shows it | evidently intended | confidence | as-written member | corrected member |
|---|---|---|---|---|---|---|
| introspection/generate/generater.go:151,197 | a refill writes the cursor with SETNX, so an existing cursor stays in the old block although database-path Takes (step ≥ maxCacheStep) have handed out the values between the old block and the new one | maxCacheStep 3, cache enabled, empty stores; Take("k",1), Take("k",3), Take("k",2), Take("k",2), Take("k",1) return 1, 6, 3, 5, 6 | no two Takes of a name hand out the same value: the cursor moves to the start of the new block when a gap separates it from the old one | high, not executed | GenerateLemmas.AsWrittenRepeats | GenerateLemmas.TakeNeverRepeats |
