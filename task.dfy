/** The persisted compensation task of introspection/compense/po_task.go. */
module Tasks {
  import opened Base
  import Dependencies

  /** One row of the compensation_task table. Times are Unix seconds. */
  datatype Task = Task(
    id: string,
    timeStamp: int,
    group: int32,
    name: string,
    args: string,
    retries: int,
    locker: string,
    lastError: string,
    lockExpire: int,
    execTime: int)
  {
    /** The claim predicate of a sweep: this group, lease expired, no holder. */
    predicate Claimable(g: int32, nowSec: int) {
      group == g && lockExpire < nowSec && locker == ""
    }

    /** GetTimeout: what is left of the lease at nowSec, as a Duration; zero
        once the lease has expired. */
    function GetTimeout(nowSec: int): (d: int)
      ensures d >= 0 && d % Second == 0
      ensures d > 0 <==> lockExpire > nowSec
      ensures d > 0 ==> nowSec + d / Second == lockExpire
    {
      if lockExpire > nowSec then Second * (lockExpire - nowSec) else 0
    }

    /** GetParams validates the arguments exactly as DefaultTask does. */
    function GetParams(decode: string -> Dependencies.Decoded): (r: Result<map<string, Dependencies.JsonValue>>)
      ensures r.Success? <==> decode(args).Object? && |decode(args).fields| > 0
      ensures r.Failure? && decode(args).Object? ==> r.error == Dependencies.ParamsNotEnough
    {
      Dependencies.DecodeParams(args, decode)
    }

    /** The ITasker view: GetOwner is the Locker column and GetDeadline the
        LockExpire column; the other getters return their field. */
    function AsTasker(): (t: Dependencies.Tasker)
      ensures t.id == id && t.group == group && t.name == name && t.args == args
      ensures t.owner == locker && t.deadline == lockExpire
    {
      Dependencies.Tasker(id, group, name, args, lockExpire, locker)
    }

    /** The IOutTasker view adds LastError and Retries to the ITasker view. */
    function AsOutTasker(): (t: Dependencies.OutTasker)
      ensures t.tasker == AsTasker()
      ensures t.lastError == lastError && t.retries == retries
    {
      Dependencies.OutTasker(AsTasker(), lastError, retries)
    }
  }

  /** NewTask: `now` (nanoseconds), the new id and the new locker token stand
      for time.Now and the two uuid calls. The lease runs until
      now + margin + timeout, read in whole seconds. */
  function NewTask(timeout: int, margin: int, group: int32, name: string, args: string,
                   now: int, freshId: string, freshLocker: string): (t: Task)
    ensures t.id == freshId && t.locker == freshLocker
    ensures t.group == group && t.name == name && t.args == args
    ensures t.retries == 0 && t.lastError == "" && t.execTime == 0
    ensures t.timeStamp * Second <= now < (t.timeStamp + 1) * Second
    ensures t.lockExpire == Unix(now + margin + timeout)
  {
    Task(freshId, Unix(now), group, name, args, 0, freshLocker, "", Unix(now + margin + timeout), 0)
  }

  /** A task just created by NewTask carries a lock holder, so no sweep can
      claim it until a failed finalize clears the holder. */
  lemma NewTaskNotClaimable(timeout: int, margin: int, group: int32, name: string, args: string,
                            now: int, freshId: string, freshLocker: string, g: int32, nowSec: int)
    requires freshLocker != ""
    ensures !NewTask(timeout, margin, group, name, args, now, freshId, freshLocker).Claimable(g, nowSec)
  {
  }
}
