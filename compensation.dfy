/** The compensation engine of introspection/compense/compensation.go: a
    handler registry, a task table, and the submit / claim / run / finalize
    protocol over that table. Clocks, UUIDs, store failures and what a handler
    does are parameters; the goroutines of the sandbox are replaced by the
    outcome they deliver. */
module Compensation {
  import opened Base
  import opened Tasks
  import opened TaskTable
  import Decimal
  import Dependencies

  /** Identity of a Go func value registered under a name. */
  type Handler = nat
  /** Identity of the notification callback func. */
  type Callback = nat
  /** Identity of the context-derivation func used for asynchronous runs. */
  type AsyncCtx = nat

  /** What the sandbox of `execute` observes: the handler returned nil, it
      returned an error, it panicked, the deadline (or the parent context)
      fired first, or no handler is registered under the task's name. */
  datatype Outcome = Ok | Err(msg: string) | Panic(msg: string) | Timeout | NoHandler

  /** What running one task gives the model: the outcome the handler would
      produce, the clock at finalize time (Unix seconds) and whether the
      finalizing statement failed in the store. */
  datatype Attempt = Attempt(handler: Outcome, finishedAt: int, storeFault: Option<string>)

  /** Go's panic of calling a nil func value, or a value returned normally. */
  datatype Return<+T> = Returned(value: T) | NilFuncPanic

  /** Stand-ins for the MySQL driver's error texts (a primary-key clash on
      insert, a negative LIMIT); only their being errors matters here. */
  const DuplicateEntry: string := "Error 1062: Duplicate entry for key 'PRIMARY'"
  const NegativeLimit: string := "Error 1064: syntax error near LIMIT"

  predicate Registered(funcMap: Option<map<string, Handler>>, name: string) {
    funcMap.Some? && name in funcMap.value
  }

  /** The handler's own outcome if one is registered under the name, else
      NoHandler: the lookup of a nil map finds nothing. */
  function Sandbox(funcMap: Option<map<string, Handler>>, name: string, handler: Outcome): (o: Outcome)
    ensures Registered(funcMap, name) ==> o == handler
    ensures !Registered(funcMap, name) ==> o == NoHandler
  {
    if Registered(funcMap, name) then handler else NoHandler
  }

  function TimeoutMessage(timeout: int): string {
    "timeout " + Decimal.Format(TruncDiv(timeout, Millisecond)) + "ms"
  }

  /** The error `execute` returns for an outcome. An unregistered name closes
      both channels without a send, so the select reads a nil error. */
  function ExecError(o: Outcome, timeout: int): (e: Option<string>)
    ensures e.None? <==> o.Ok? || o.NoHandler?
    ensures o.Err? ==> e == Some(o.msg)
    ensures o.Panic? ==> e == Some("panic " + o.msg)
    ensures o.Timeout? ==> e == Some(TimeoutMessage(timeout))
  {
    match o
    case Ok => None
    case Err(m) => Some(m)
    case Panic(p) => Some("panic " + p)
    case Timeout => Some(TimeoutMessage(timeout))
    case NoHandler => None
  }

  /** The error of running a task named `name` with attempt a. */
  function Verdict(funcMap: Option<map<string, Handler>>, timeout: int, a: Attempt, name: string): Option<string> {
    ExecError(Sandbox(funcMap, name, a.handler), timeout)
  }

  /** The table after `after` ran for task t with error err. */
  function AfterEffect(rows: Table, t: Task, err: Option<string>, a: Attempt): Table {
    if a.storeFault.Some? then rows else Finalize(rows, t.id, t.locker, err, a.finishedAt)
  }

  /** Whether the finalize of a swept task deletes its row or records an error on it. */
  predicate SweepDeletes(funcMap: Option<map<string, Handler>>, timeout: int, run: Task -> Attempt, t: Task) {
    run(t).storeFault.None? && Verdict(funcMap, timeout, run(t), t.name).None?
  }

  predicate SweepRecords(funcMap: Option<map<string, Handler>>, timeout: int, run: Task -> Attempt, t: Task) {
    run(t).storeFault.None? && Verdict(funcMap, timeout, run(t), t.name).Some?
  }

  function SweepFailed(funcMap: Option<map<string, Handler>>, timeout: int, run: Task -> Attempt, t: Task): Task
    requires SweepRecords(funcMap, timeout, run, t)
  {
    t.(execTime := run(t).finishedAt, lastError := Verdict(funcMap, timeout, run(t), t.name).value, locker := "")
  }

  /** The table once the tasks whose ids are in `done` have each been run and
      finalized, starting from `rows`, the table as the claim left it. */
  function Settle(rows: Table, done: set<string>, funcMap: Option<map<string, Handler>>, timeout: int,
                  run: Task -> Attempt): Table
  {
    map id | id in rows && !(id in done && SweepDeletes(funcMap, timeout, run, rows[id]))
      :: if id in done && SweepRecords(funcMap, timeout, run, rows[id])
         then SweepFailed(funcMap, timeout, run, rows[id]) else rows[id]
  }

  /** Finalizing one more claimed task extends the settled set by its id: the
      tasks of a sweep touch disjoint rows, so the order in which they finish
      does not matter. */
  lemma SettleStep(rows: Table, done: set<string>, x: string, funcMap: Option<map<string, Handler>>,
                   timeout: int, run: Task -> Attempt)
    requires Keyed(rows)
    requires x in rows && x !in done
    ensures AfterEffect(Settle(rows, done, funcMap, timeout, run), rows[x],
                        Verdict(funcMap, timeout, run(rows[x]), rows[x].name), run(rows[x]))
         == Settle(rows, done + {x}, funcMap, timeout, run)
  {
    var cur := Settle(rows, done, funcMap, timeout, run);
    var t := rows[x];
    assert x in cur && cur[x] == t;
    var lhs := AfterEffect(cur, t, Verdict(funcMap, timeout, run(t), t.name), run(t));
    var rhs := Settle(rows, done + {x}, funcMap, timeout, run);
    assert lhs.Keys == rhs.Keys;
    forall id | id in lhs ensures lhs[id] == rhs[id] {
    }
  }

  /** The fate of each row in a sweep: a task that ran and whose finalize
      reached the store is gone on success, and on failure keeps every column
      but ExecTime, LastError and Locker (now empty); all other rows are as the
      claim left them. */
  lemma SweepFate(rows: Table, done: set<string>, funcMap: Option<map<string, Handler>>, timeout: int,
                  run: Task -> Attempt, id: string)
    requires id in rows
    ensures var s := Settle(rows, done, funcMap, timeout, run);
      && (id in done && SweepDeletes(funcMap, timeout, run, rows[id]) ==> id !in s)
      && (id in done && SweepRecords(funcMap, timeout, run, rows[id]) ==>
            id in s && s[id].retries == rows[id].retries && s[id].name == rows[id].name &&
            s[id].args == rows[id].args && s[id].group == rows[id].group && s[id].locker == "" &&
            Some(s[id].lastError) == Verdict(funcMap, timeout, run(rows[id]), rows[id].name))
      && (id !in done || run(rows[id]).storeFault.Some? ==> id in s && s[id] == rows[id])
  {
  }

  /** The row a direct Execute leaves behind for a newly inserted task t:
      none when the run succeeded (an unregistered name counts as success),
      the task with its error recorded and its lease released when it failed;
      every other row is as before. */
  lemma {:induction false} ExecuteFate(rows: Table, t: Task, err: Option<string>, a: Attempt)
    requires t.id !in rows && a.storeFault.None?
    ensures err.None? ==> AfterEffect(rows[t.id := t], t, err, a) == rows
    ensures err.Some? ==>
      AfterEffect(rows[t.id := t], t, err, a) == rows[t.id := t.(execTime := a.finishedAt, lastError := err.value, locker := "")]
  {
    var r := rows[t.id := t];
    assert Owned(r, t.id, t.locker);
    if err.None? {
      assert r - {t.id} == rows;
    }
  }

  /** The retry story of the source's tests: a task whose direct run failed is
      claimed by the next sweep of its group once its lease has expired (given
      a limit covering every eligible row and a new, non-empty locker), so its
      Retries goes from 0 to exactly 1; if it fails again, its row keeps its
      Name and Args and records the new error. */
  lemma {:induction false} FailedTaskRetriedOnce(
    rows0: Table, t: Task, firstError: string, a1: Attempt,
    claimed: set<string>, nowSec: int, limit: nat, owner: string, expire: int,
    funcMap: Option<map<string, Handler>>, timeout: int, run: Task -> Attempt)
    requires Keyed(rows0) && t.id !in rows0 && t.retries == 0
    requires a1.storeFault.None? && t.lockExpire < nowSec
    requires owner != ""
    requires var rows1 := AfterEffect(rows0[t.id := t], t, Some(firstError), a1);
      && |EligibleIds(rows1, t.group, nowSec)| <= limit
      && ValidClaim(rows1, claimed, t.group, nowSec, limit)
      && (forall id :: id in rows1 ==> rows1[id].locker != owner)
    ensures var rows1 := AfterEffect(rows0[t.id := t], t, Some(firstError), a1);
      var claimedRows := ApplyClaim(rows1, claimed, owner, expire);
      var batch := Select(claimedRows, owner);
      var swept := Settle(claimedRows, batch.Keys, funcMap, timeout, run);
      && t.id in batch
      && claimedRows[t.id].retries == 1
      && (SweepDeletes(funcMap, timeout, run, claimedRows[t.id]) ==> t.id !in swept)
      && (SweepRecords(funcMap, timeout, run, claimedRows[t.id]) ==>
            t.id in swept && swept[t.id].retries == 1 && swept[t.id].name == t.name &&
            swept[t.id].args == t.args && swept[t.id].locker == "")
  {
    var rows1 := AfterEffect(rows0[t.id := t], t, Some(firstError), a1);
    ExecuteFate(rows0, t, Some(firstError), a1);
    assert rows1[t.id].Claimable(t.group, nowSec);
    assert t.id in EligibleIds(rows1, t.group, nowSec);
    ClaimTakesAllWhenFew(rows1, claimed, t.group, nowSec, limit);
    var claimedRows := ApplyClaim(rows1, claimed, owner, expire);
    SelectIsClaim(rows1, claimed, t.group, nowSec, limit, owner, expire);
    var batch := Select(claimedRows, owner);
    assert t.id in batch;
    SweepFate(claimedRows, batch.Keys, funcMap, timeout, run, t.id);
  }

  /** Everything a Compensation holds that the options can set. */
  datatype Config = Config(
    db: TaskDB?, margin: int, funcMap: Option<map<string, Handler>>,
    execCallBack: Option<Callback>, newAsyncCtx: Option<AsyncCtx>)

  /** The database: the compensation_task table. */
  class TaskDB {
    var rows: Table

    ghost predicate Valid()
      reads this
    {
      Keyed(rows)
    }

    constructor ()
      ensures Valid() && rows == map[]
    {
      rows := map[];
    }
  }

  class Compensation {
    var db: TaskDB?
    var margin: int
    var funcMap: Option<map<string, Handler>>
    var execCallBack: Option<Callback>
    var newAsyncCtx: Option<AsyncCtx>

    /** `&Compensation{}`: every field is its zero value. */
    constructor ()
      ensures db == null && margin == 0 && funcMap == None && execCallBack == None && newAsyncCtx == None
    {
      db := null;
      margin := 0;
      funcMap := None;
      execCallBack := None;
      newAsyncCtx := None;
    }

    function Settings(): Config
      reads this
    {
      Config(db, margin, funcMap, execCallBack, newAsyncCtx)
    }

    /** SetNewAsyncCtx: replace the context factory; never fails. */
    method SetNewAsyncCtx(v: Option<AsyncCtx>) returns (err: Option<string>)
      modifies this
      ensures Settings() == old(Settings()).(newAsyncCtx := v) && err == None
    {
      newAsyncCtx := v;
      err := None;
    }

    /** SetExecCallBack: replace the notification callback; never fails. */
    method SetExecCallBack(v: Option<Callback>) returns (err: Option<string>)
      modifies this
      ensures Settings() == old(Settings()).(execCallBack := v) && err == None
    {
      execCallBack := v;
      err := None;
    }

    /** Register: a nil registry is created first; a name already present is
        refused and keeps its handler. */
    method Register(name: string, exec: Handler) returns (err: Option<string>)
      modifies this
      ensures db == old(db) && margin == old(margin)
      ensures execCallBack == old(execCallBack) && newAsyncCtx == old(newAsyncCtx)
      ensures Registered(old(funcMap), name) ==> err == Some(name + " func has registed") && funcMap == old(funcMap)
      ensures !Registered(old(funcMap), name) ==>
        err == None &&
        funcMap == Some((if old(funcMap).Some? then old(funcMap).value else map[])[name := exec])
    {
      if funcMap.None? {
        funcMap := Some(map[]);
      }
      if name in funcMap.value {
        return Some(name + " func has registed");
      }
      funcMap := Some(funcMap.value[name := exec]);
      err := None;
    }

    /** add: insert one row; the store refuses a duplicate Id. */
    method Add(t: Task, fault: Option<string>) returns (n: int, err: Option<string>)
      requires db != null && db.Valid()
      modifies db
      ensures db.Valid()
      ensures fault.Some? ==> n == 0 && err == fault && db.rows == old(db.rows)
      ensures fault.None? && t.id in old(db.rows) ==> n == 0 && err == Some(DuplicateEntry) && db.rows == old(db.rows)
      ensures fault.None? && t.id !in old(db.rows) ==> n == 1 && err == None && db.rows == old(db.rows)[t.id := t]
    {
      if fault.Some? {
        return 0, fault;
      }
      if t.id in db.rows {
        return 0, Some(DuplicateEntry);
      }
      db.rows := db.rows[t.id := t];
      n, err := 1, None;
    }

    /** queryByType: in one transaction, claim with a single conditional
        UPDATE and read back every row carrying the new locker; any failure
        rolls back. `claimed` names the rows the UPDATE touched. */
    method QueryByType(group: int32, limit: int32, lockExpire: int, nowSec: int, owner: string,
                       fault: Option<string>)
      returns (tasks: Result<Table>, ghost claimed: set<string>)
      requires db != null && db.Valid()
      modifies db
      ensures db.Valid()
      ensures fault.Some? ==> tasks == Failure(fault.value) && db.rows == old(db.rows)
      ensures fault.None? && limit < 0 ==> tasks == Failure(NegativeLimit) && db.rows == old(db.rows)
      ensures fault.None? && limit >= 0 ==>
        && ValidClaim(old(db.rows), claimed, group, nowSec, limit as nat)
        && db.rows == ApplyClaim(old(db.rows), claimed, owner, lockExpire)
        && tasks == Success(Select(db.rows, owner))
    {
      if fault.Some? {
        return Failure(fault.value), {};
      }
      if limit < 0 {
        return Failure(NegativeLimit), {};
      }
      var c := ChooseClaim(db.rows, group, nowSec, limit as nat);
      claimed := c;
      db.rows := ApplyClaim(db.rows, c, owner, lockExpire);
      tasks := Success(Select(db.rows, owner));
    }

    /** Tasks: claim for a lease that ends `margin + timeout` after `now`. */
    method Tasks(group: int32, limit: int32, timeout: int, now: int, owner: string, fault: Option<string>)
      returns (tasks: Result<Table>, ghost claimed: set<string>)
      requires db != null && db.Valid()
      modifies db
      ensures db.Valid()
      ensures fault.Some? ==> tasks == Failure(fault.value) && db.rows == old(db.rows)
      ensures fault.None? && limit < 0 ==> tasks.Failure? && db.rows == old(db.rows)
      ensures fault.None? && limit >= 0 ==>
        && ValidClaim(old(db.rows), claimed, group, Unix(now), limit as nat)
        && db.rows == ApplyClaim(old(db.rows), claimed, owner, Unix(now + margin + timeout))
        && tasks == Success(Select(db.rows, owner))
    {
      tasks, claimed := QueryByType(group, limit, Unix(now + margin + timeout), Unix(now), owner, fault);
    }

    method RecordLastError(id: string, locker: string, msg: string, execAt: int, fault: Option<string>)
      returns (n: int, err: Option<string>)
      requires db != null && db.Valid()
      modifies db
      ensures db.Valid()
      ensures fault.Some? ==> n == 0 && err == fault && db.rows == old(db.rows)
      ensures fault.None? ==>
        err == None && n == FinalizeCount(old(db.rows), id, locker) &&
        db.rows == RecordError(old(db.rows), id, locker, msg, execAt)
    {
      if fault.Some? {
        return 0, fault;
      }
      n := FinalizeCount(db.rows, id, locker);
      db.rows := RecordError(db.rows, id, locker, msg, execAt);
      err := None;
    }

    method Delete(id: string, locker: string, fault: Option<string>) returns (n: int, err: Option<string>)
      requires db != null && db.Valid()
      modifies db
      ensures db.Valid()
      ensures fault.Some? ==> n == 0 && err == fault && db.rows == old(db.rows)
      ensures fault.None? ==>
        err == None && n == FinalizeCount(old(db.rows), id, locker) &&
        db.rows == DeleteOwned(old(db.rows), id, locker)
    {
      if fault.Some? {
        return 0, fault;
      }
      n := FinalizeCount(db.rows, id, locker);
      db.rows := DeleteOwned(db.rows, id, locker);
      err := None;
    }

    /** after: finalize by the task's Id and owner. */
    method After(t: Task, err: Option<string>, execAt: int, fault: Option<string>)
      returns (n: int, afterErr: Option<string>)
      requires db != null && db.Valid()
      modifies db
      ensures db.Valid()
      ensures afterErr == fault
      ensures db.rows == AfterEffect(old(db.rows), t, err, Attempt(Ok, execAt, fault))
    {
      if err.Some? {
        n, afterErr := RecordLastError(t.id, t.locker, err.value, execAt, fault);
      } else {
        n, afterErr := Delete(t.id, t.locker, fault);
      }
    }

    /** execute: run the sandbox, then finalize; the finalize's own result
        only goes to the notification callback. */
    method RunAndFinalize(t: Task, timeout: int, a: Attempt) returns (err: Option<string>)
      requires db != null && db.Valid()
      modifies db
      ensures db.Valid()
      ensures err == Verdict(funcMap, timeout, a, t.name)
      ensures db.rows == AfterEffect(old(db.rows), t, err, a)
    {
      var o := Sandbox(funcMap, t.name, a.handler);
      err := ExecError(o, timeout);
      var _, _ := After(t, err, a.finishedAt, a.storeFault);
    }

    /** Execute: persist a new task built from the caller's group, name and
        args, then run and finalize it directly (it is already owned by the
        new locker). The row count returned is the insert's. */
    method Execute(task: Dependencies.Tasker, timeout: int, now: int, freshId: string, freshLocker: string,
                   addFault: Option<string>, a: Attempt)
      returns (n: int, out: Task, err: Option<string>)
      requires db != null && db.Valid()
      modifies db
      ensures db.Valid()
      ensures out == NewTask(timeout, margin, task.group, task.name, task.args, now, freshId, freshLocker)
      ensures addFault.Some? || freshId in old(db.rows) ==>
        n == 0 && err.Some? && db.rows == old(db.rows) && (addFault.Some? ==> err == addFault)
      ensures addFault.None? && freshId !in old(db.rows) ==>
        && n == 1
        && err == Verdict(funcMap, timeout, a, task.name)
        && db.rows == AfterEffect(old(db.rows)[freshId := out], out, err, a)
    {
      out := NewTask(timeout, margin, task.group, task.name, task.args, now, freshId, freshLocker);
      n, err := Add(out, addFault);
      if err.Some? {
        return;
      }
      err := RunAndFinalize(out, timeout, a);
    }

    /** ExecuteAsync, persistence only: the detached run is not modelled. The
        source derives the detached context through newAsyncCtx, which panics
        when that func is nil. */
    method ExecuteAsync(task: Dependencies.Tasker, timeout: int, now: int, freshId: string, freshLocker: string,
                        addFault: Option<string>)
      returns (r: Return<(int, Task, Option<string>)>)
      requires db != null && db.Valid()
      modifies db
      ensures db.Valid()
      ensures var out := NewTask(timeout, margin, task.group, task.name, task.args, now, freshId, freshLocker);
        && (addFault.Some? || freshId in old(db.rows) ==>
              r.Returned? && r.value.0 == 0 && r.value.1 == out && r.value.2.Some? && db.rows == old(db.rows))
        && (addFault.Some? ==> r.Returned? && r.value.2 == addFault)
        && (addFault.None? && freshId in old(db.rows) ==> r.Returned? && r.value.2 == Some(DuplicateEntry))
        && (addFault.None? && freshId !in old(db.rows) ==>
              db.rows == old(db.rows)[freshId := out] &&
              r == (if newAsyncCtx.None? then NilFuncPanic else Returned((1, out, None))))
    {
      var out := NewTask(timeout, margin, task.group, task.name, task.args, now, freshId, freshLocker);
      var n, err := Add(out, addFault);
      if err.Some? {
        return Returned((n, out, err));
      }
      if newAsyncCtx.None? {
        return NilFuncPanic;
      }
      r := Returned((n, out, err));
    }

    /** TaskByID: the row, or nothing once a successful run deleted it. */
    method TaskByID(id: string, fault: Option<string>) returns (t: Option<Task>, err: Option<string>)
      requires db != null
      ensures fault.Some? ==> t == None && err == fault
      ensures fault.None? ==> err == None && (t.Some? <==> id in db.rows)
      ensures fault.None? && t.Some? ==> t.value == db.rows[id]
    {
      if fault.Some? {
        return None, fault;
      }
      if id in db.rows {
        t := Some(db.rows[id]);
      } else {
        t := None;
      }
      err := None;
    }

    /** The fan-out of Executes: every task of the batch is run and finalized
        once; the batch is a part of the table as the claim left it. */
    method SettleBatch(batch: Table, timeout: int, run: Task -> Attempt)
      requires db != null && db.Valid()
      requires forall id :: id in batch ==> id in db.rows && db.rows[id] == batch[id]
      modifies db
      ensures db.Valid()
      ensures db.rows == Settle(old(db.rows), batch.Keys, funcMap, timeout, run)
    {
      ghost var start := db.rows;
      var pending := batch.Keys;
      while pending != {}
        invariant pending <= batch.Keys
        invariant db.Valid()
        invariant db.rows == Settle(start, batch.Keys - pending, funcMap, timeout, run)
        decreases pending
      {
        var id :| id in pending;
        var t := batch[id];
        SettleStep(start, batch.Keys - pending, id, funcMap, timeout, run);
        var _ := RunAndFinalize(t, timeout, run(t));
        assert (batch.Keys - pending) + {id} == batch.Keys - (pending - {id});
        pending := pending - {id};
      }
    }

    /** Executes: claim a batch, then run and finalize every claimed task;
        individual outcomes never reach the caller. `run` gives the attempt of
        each claimed task. */
    method Executes(group: int32, limit: int32, timeout: int, now: int, owner: string,
                    claimFault: Option<string>, run: Task -> Attempt)
      returns (r: Return<Option<string>>, ghost claimed: set<string>)
      requires db != null && db.Valid()
      modifies db
      ensures db.Valid()
      ensures claimFault.Some? ==> r == Returned(claimFault) && db.rows == old(db.rows)
      ensures claimFault.None? && limit < 0 ==> r.Returned? && r.value.Some? && db.rows == old(db.rows)
      ensures claimFault.None? && limit >= 0 ==>
        var claimedRows := ApplyClaim(old(db.rows), claimed, owner, Unix(now + margin + timeout));
        var batch := Select(claimedRows, owner);
        && ValidClaim(old(db.rows), claimed, group, Unix(now), limit as nat)
        && (batch == map[] ==> r == Returned(None) && db.rows == claimedRows)
        && (batch != map[] && newAsyncCtx.None? ==> r == NilFuncPanic && db.rows == claimedRows)
        && (batch != map[] && newAsyncCtx.Some? ==>
              r == Returned(None) && db.rows == Settle(claimedRows, batch.Keys, funcMap, timeout, run))
    {
      var tasks;
      tasks, claimed := Tasks(group, limit, timeout, now, owner, claimFault);
      if tasks.Failure? {
        return Returned(Some(tasks.error)), claimed;
      }
      var batch := tasks.value;
      if |batch| < 1 {
        return Returned(None), claimed;
      }
      if newAsyncCtx.None? {
        return NilFuncPanic, claimed;
      }
      SettleBatch(batch, timeout, run);
      r := Returned(None);
    }
  }
}
