/** The compensation_task table as a map from Id to row, and the row-level
    effect of each statement the engine issues against it
    (introspection/compense/compensation.go): the claiming UPDATE and its
    SELECT, and the two finalizing statements guarded by Id and Locker. */
module TaskTable {
  import opened Base
  import opened Tasks

  type Table = map<string, Task>

  /** The primary key: every row is stored under its own Id. */
  predicate Keyed(rows: Table) {
    forall id :: id in rows ==> rows[id].id == id
  }

  /** Ids of the rows the claim's WHERE clause matches. */
  function EligibleIds(rows: Table, g: int32, nowSec: int): set<string> {
    set id | id in rows && rows[id].Claimable(g, nowSec)
  }

  /** `ORDER BY TimeStamp ASC LIMIT limit` over the matching rows: c holds
      min(limit, #matching) of them and none is younger than a matching row
      left out. Rows with equal TimeStamp may be taken in either order. */
  predicate ValidClaim(rows: Table, c: set<string>, g: int32, nowSec: int, limit: nat) {
    var e := EligibleIds(rows, g, nowSec);
    && c <= e
    && |c| == (if limit < |e| then limit else |e|)
    && forall a, b :: a in c && b in e - c ==> rows[a].timeStamp <= rows[b].timeStamp
  }

  /** The SET list of the claim: the new locker, the new lease end, Retries+1. */
  function ClaimRow(t: Task, owner: string, expire: int): Task {
    t.(locker := owner, lockExpire := expire, retries := t.retries + 1)
  }

  /** The claiming UPDATE: every claimed row gets the claim's SET list, the
      others are left as they were; no row appears or disappears. */
  function ApplyClaim(rows: Table, c: set<string>, owner: string, expire: int): (r: Table)
    ensures r.Keys == rows.Keys
    ensures forall id :: id in r && id in c ==> r[id].locker == owner && r[id].lockExpire == expire && r[id].retries == rows[id].retries + 1
    ensures forall id :: id in r && id !in c ==> r[id] == rows[id]
  {
    map id | id in rows :: if id in c then ClaimRow(rows[id], owner, expire) else rows[id]
  }

  /** `SELECT ... WHERE Locker = ?`. */
  function Select(rows: Table, locker: string): (r: Table)
    ensures forall id :: id in r <==> Owned(rows, id, locker)
    ensures forall id :: id in r ==> id in rows && r[id] == rows[id]
  {
    map id | id in rows && rows[id].locker == locker :: rows[id]
  }

  /** The WHERE clause of both finalizing statements: this Id, still held by
      this locker. */
  predicate Owned(rows: Table, id: string, locker: string) {
    id in rows && rows[id].locker == locker
  }

  /** recordLastError: the UPDATE writes ExecTime, LastError and Locker from a
      bean whose Locker is the zero string, so it also releases the lease. */
  function RecordError(rows: Table, id: string, locker: string, msg: string, execAt: int): (r: Table)
    ensures r.Keys == rows.Keys
    ensures forall k :: k in rows && k != id ==> r[k] == rows[k]
    ensures Owned(rows, id, locker) ==> r[id].lastError == msg && r[id].execTime == execAt && r[id].locker == ""
    ensures !Owned(rows, id, locker) ==> r == rows
  {
    if Owned(rows, id, locker) then rows[id := rows[id].(execTime := execAt, lastError := msg, locker := "")]
    else rows
  }

  /** delete: `DELETE ... WHERE Id = ? AND Locker = ?`. */
  function DeleteOwned(rows: Table, id: string, locker: string): (r: Table)
    ensures r.Keys == if Owned(rows, id, locker) then rows.Keys - {id} else rows.Keys
    ensures forall k :: k in r ==> r[k] == rows[k]
  {
    if Owned(rows, id, locker) then rows - {id} else rows
  }

  /** after: a nil error deletes the row, any other error is recorded on it. */
  function Finalize(rows: Table, id: string, locker: string, err: Option<string>, execAt: int): (r: Table)
    ensures forall k :: k in rows && k != id ==> k in r && r[k] == rows[k]
    ensures !Owned(rows, id, locker) ==> r == rows
    ensures Owned(rows, id, locker) ==> (id in r <==> err.Some?)
  {
    if err.Some? then RecordError(rows, id, locker, err.value, execAt) else DeleteOwned(rows, id, locker)
  }

  /** Rows affected by either finalizing statement. */
  function FinalizeCount(rows: Table, id: string, locker: string): int {
    if Owned(rows, id, locker) then 1 else 0
  }

  /** Picks the rows the claiming UPDATE touches, oldest TimeStamp first. */
  method ChooseClaim(rows: Table, g: int32, nowSec: int, limit: nat) returns (c: set<string>)
    ensures ValidClaim(rows, c, g, nowSec, limit)
  {
    var e := EligibleIds(rows, g, nowSec);
    var pool := e;
    c := {};
    while |c| < limit && pool != {}
      invariant c !! pool && c + pool == e
      invariant |c| <= limit
      invariant forall a, b :: a in c && b in pool ==> rows[a].timeStamp <= rows[b].timeStamp
      decreases pool
    {
      OldestExists(rows, pool);
      var id :| id in pool && forall o :: o in pool ==> rows[id].timeStamp <= rows[o].timeStamp;
      c := c + {id};
      pool := pool - {id};
    }
    assert e - c == pool;
  }

  lemma {:induction false} OldestExists(rows: Table, pool: set<string>)
    requires pool != {} && pool <= rows.Keys
    ensures exists id :: id in pool && forall o :: o in pool ==> rows[id].timeStamp <= rows[o].timeStamp
    decreases pool
  {
    var x :| x in pool;
    var rest := pool - {x};
    if rest != {} {
      OldestExists(rows, rest);
      var y :| y in rest && forall o :: o in rest ==> rows[y].timeStamp <= rows[o].timeStamp;
      if rows[x].timeStamp < rows[y].timeStamp {
        assert forall o :: o in pool ==> rows[x].timeStamp <= rows[o].timeStamp;
      } else {
        assert forall o :: o in pool ==> rows[y].timeStamp <= rows[o].timeStamp;
      }
    } else {
      assert pool == {x};
    }
  }

  /** What the claim does to each row: claimed rows get the owner locker, the
      new lease end and exactly one more retry; every other row is untouched;
      no row appears or disappears. */
  lemma ClaimEffect(rows: Table, c: set<string>, owner: string, expire: int)
    ensures ApplyClaim(rows, c, owner, expire).Keys == rows.Keys
    ensures forall id :: id in rows && id in c ==>
      var t := ApplyClaim(rows, c, owner, expire)[id];
      t.locker == owner && t.lockExpire == expire && t.retries == rows[id].retries + 1 &&
      t.id == rows[id].id && t.group == rows[id].group && t.name == rows[id].name && t.args == rows[id].args &&
      t.timeStamp == rows[id].timeStamp && t.lastError == rows[id].lastError && t.execTime == rows[id].execTime
    ensures forall id :: id in rows && id !in c ==> ApplyClaim(rows, c, owner, expire)[id] == rows[id]
  {
  }

  /** Mutual exclusion: once a claim with a non-empty locker has committed, a
      later claim (any group, any time, any limit) cannot take any of its rows
      until they are released. */
  lemma ClaimsExclusive(rows: Table, c1: set<string>, g1: int32, now1: int, limit1: nat,
                        owner1: string, expire1: int,
                        c2: set<string>, g2: int32, now2: int, limit2: nat)
    requires owner1 != ""
    requires ValidClaim(rows, c1, g1, now1, limit1)
    requires ValidClaim(ApplyClaim(rows, c1, owner1, expire1), c2, g2, now2, limit2)
    ensures c1 !! c2
  {
    var r2 := ApplyClaim(rows, c1, owner1, expire1);
    forall id | id in c1 ensures id !in EligibleIds(r2, g2, now2) {
      assert r2[id].locker == owner1;
    }
  }

  /** The SELECT by the owner locker returns exactly the claimed rows, as the
      claim left them, provided the locker is non-empty and no row held it
      before (a new UUID). */
  lemma SelectIsClaim(rows: Table, c: set<string>, g: int32, nowSec: int, limit: nat,
                      owner: string, expire: int)
    requires owner != ""
    requires forall id :: id in rows ==> rows[id].locker != owner
    requires ValidClaim(rows, c, g, nowSec, limit)
    ensures Select(ApplyClaim(rows, c, owner, expire), owner).Keys == c
    ensures forall id :: id in c ==> Select(ApplyClaim(rows, c, owner, expire), owner)[id] == ClaimRow(rows[id], owner, expire)
  {
    var r := ApplyClaim(rows, c, owner, expire);
    assert c <= rows.Keys;
  }

  /** With a limit no smaller than the number of matching rows, the claim
      takes all of them. */
  lemma ClaimTakesAllWhenFew(rows: Table, c: set<string>, g: int32, nowSec: int, limit: nat)
    requires ValidClaim(rows, c, g, nowSec, limit)
    requires |EligibleIds(rows, g, nowSec)| <= limit
    ensures c == EligibleIds(rows, g, nowSec)
  {
    var e := EligibleIds(rows, g, nowSec);
    assert |e - c| == |e| - |c|;
  }

  /** Finalizing with a nil error removes exactly the owned row; with an
      error it rewrites exactly ExecTime, LastError and Locker (now empty) of
      the owned row. A row no longer held by that locker is left alone. */
  lemma FinalizeEffect(rows: Table, id: string, locker: string, err: Option<string>, execAt: int)
    ensures var r := Finalize(rows, id, locker, err, execAt);
      && (!Owned(rows, id, locker) ==> r == rows)
      && (Owned(rows, id, locker) && err.None? ==> r.Keys == rows.Keys - {id})
      && (Owned(rows, id, locker) && err.Some? ==>
            r.Keys == rows.Keys &&
            r[id] == rows[id].(execTime := execAt, lastError := err.value, locker := ""))
      && forall k :: k in r && k != id ==> k in rows && r[k] == rows[k]
  {
  }

  /** A failed task's lease is released: its row matches the claim predicate
      of its group again as soon as its lease end is in the past. */
  lemma FailureReleasesLease(rows: Table, id: string, locker: string, msg: string, execAt: int, nowSec: int)
    requires Owned(rows, id, locker)
    ensures var r := RecordError(rows, id, locker, msg, execAt);
      id in r && (r[id].Claimable(rows[id].group, nowSec) <==> rows[id].lockExpire < nowSec)
  {
  }
}
