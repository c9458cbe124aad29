/** The Generator of introspection/generate/generater.go: a configuration
    fixed at construction and two stores it changes one operation at a time,
    the idrecord table and the Redis keyspace. Every method is proved to have
    exactly the effect of the corresponding transition of GenerateSpec under
    the refill policy it was built with: AsWritten, the SETNX cursor of the
    source, or SkipGap, the corrected cursor under which no two Takes of a
    name ever reserve a common value. */
module Generate {
  import opened Base
  import opened IdScripts
  import opened GenerateSpec

  class Generator {
    const enableCache: bool
    const maxCacheStep: int
    const keyPrefix: string
    /** How cacheBuildSource places the cursor after a refill. */
    const policy: Refill
    /** The idrecord table: Name -> CurValue. */
    var db: Store
    /** The Redis keyspace. */
    var cache: Store

    function Config(): GenConfig
    {
      GenConfig(enableCache, maxCacheStep, keyPrefix)
    }

    function State(): IdState
      reads this
    {
      IdState(db, cache)
    }

    /** NewGenerator (the generator its factory builds). */
    constructor (db: Store, cache: Store, enableCache: bool, maxCacheStep: int, prefix: string, policy: Refill)
      ensures this.enableCache == enableCache && keyPrefix == prefix && this.policy == policy
      ensures this.maxCacheStep == EffectiveMaxCacheStep(maxCacheStep)
      ensures this.db == db && this.cache == cache
    {
      var step := 10000;
      if maxCacheStep > 0 {
        step := maxCacheStep;
      }
      this.enableCache := enableCache;
      this.maxCacheStep := step;
      this.keyPrefix := prefix;
      this.policy := policy;
      this.db := db;
      this.cache := cache;
    }

    /** SQLInOrUp on the idrecord table. */
    method ExecInOrUp(name: string, step: int)
      modifies this`db
      ensures db == InOrUp(old(db), name, step)
    {
      if name in db {
        db := db[name := db[name] + step];
      } else {
        db := db[name := step];
      }
    }

    /** LuaStInc on the keyspace. */
    method EvalStInc(srcKey: string, numKey: string, step: int, maxStep: int) returns (reply: StIncReply)
      requires srcKey != numKey
      modifies this`cache
      ensures Eval(cache, reply) == StInc(old(cache), srcKey, numKey, step, maxStep)
    {
      if srcKey !in cache {
        return Exhausted;
      }
      var source := cache[srcKey];
      if numKey !in cache {
        return ScriptError;
      }
      if cache[numKey] + step <= source + maxStep {
        cache := cache[numKey := cache[numKey] + step];
        reply := Reply(source, cache[numKey]);
      } else {
        reply := Exhausted;
      }
    }

    /** LuaBuildSource on the keyspace. */
    method EvalBuildSource(srcKey: string, start: int)
      modifies this`cache
      ensures cache == BuildSource(old(cache), srcKey, start)
    {
      if srcKey in cache && cache[srcKey] >= start {
        return;
      }
      cache := cache[srcKey := start];
    }

    /** SETNX on the keyspace. */
    method ExecSetNX(key: string, v: int)
      modifies this`cache
      ensures cache == SetNX(old(cache), key, v)
    {
      if key !in cache {
        cache := cache[key := v];
      }
    }

    method DbIncrease(name: string, step: int, fault: Option<string>) returns (r: Result<int>)
      modifies this`db
      ensures (db, r) == GenerateSpec.DbIncrease(old(db), name, step, fault)
    {
      if fault.Some? {
        return Failure(fault.value);
      }
      ExecInOrUp(name, step);
      r := Success(db[name]);
    }

    method CacheIncrease(name: string, step: int, maxstep: int) returns (r: Result<int>)
      modifies this`cache
      ensures (cache, r) == GenerateSpec.CacheIncrease(Config(), old(cache), name, step, maxstep)
    {
      SourceNumDistinct(Config(), name);
      var reply := EvalStInc(BuildKey(keyPrefix, name, SourceSuffix), BuildKey(keyPrefix, name, NumSuffix), step, maxstep);
      match reply
      case Reply(_, n) => r := Success(n);
      case Exhausted => r := Success(-1);
      case ScriptError => r := Failure(ScriptErrorText);
    }

    /** cacheBuildSource. AsWritten writes the cursor with SETNX, leaving an
        existing one in place; SkipGap moves it to start unless the old block
        ends at or after start. */
    method CacheBuildSource(name: string, start: int)
      modifies this`cache
      ensures cache == GenerateSpec.CacheBuildSource(policy, Config(), old(cache), name, start)
    {
      var srcKey := BuildKey(keyPrefix, name, SourceSuffix);
      var numKey := BuildKey(keyPrefix, name, NumSuffix);
      SourceNumDistinct(Config(), name);
      var keep := srcKey in cache && numKey in cache && cache[srcKey] + maxCacheStep >= start;
      EvalBuildSource(srcKey, start);
      match policy
      case AsWritten =>
        ExecSetNX(numKey, start);
      case SkipGap =>
        if !keep {
          cache := cache[numKey := start];
        }
    }

    /** increase: the closure it runs under the per-name lock. */
    method Increase(key: string, step: int, dbFault: Option<string>) returns (r: Option<int>)
      modifies this
      ensures (State(), r) == IncreaseLocked(policy, Config(), old(State()), key, step, dbFault)
    {
      var again := CacheIncrease(key, step, maxCacheStep);
      if again.Failure? {
        return None;
      }
      if again.value != -1 {
        return Some(again.value);
      }
      var dbs := DbIncrease(key, maxCacheStep, dbFault);
      if dbs.Failure? {
        return None;
      }
      CacheBuildSource(key, dbs.value - maxCacheStep);
      var last := CacheIncrease(key, step, maxCacheStep);
      r := if last.Failure? then None else Some(last.value);
    }

    /** Take; lockTimedOut says whether LockInvoke gave up waiting for the
        closure (whose effects then still happen). */
    method Take(key: string, step: int, dbFault: Option<string>, lockTimedOut: bool) returns (r: Result<int>)
      modifies this
      ensures (State(), r) == GenerateSpec.Take(policy, Config(), old(State()), key, step, dbFault, lockTimedOut)
    {
      if !enableCache || step >= maxCacheStep {
        r := DbIncrease(key, step, dbFault);
        return;
      }
      r := CacheIncrease(key, step, maxCacheStep);
      if r.Failure? || r.value != -1 {
        return;
      }
      var idr := Increase(key, step, dbFault);
      if lockTimedOut || idr.None? {
        r := Failure(IncreaseFailedText(key));
      } else {
        r := Success(idr.value);
      }
    }

    /** Cursor, through cacheCursor. */
    method Cursor(key: string) returns (r: Result<int>)
      ensures r == GenerateSpec.Cursor(Config(), cache, key)
    {
      var numKey := BuildKey(keyPrefix, key, NumSuffix);
      if numKey !in cache {
        return Failure(NilReplyText);
      }
      r := Success(cache[numKey]);
    }
  }
}
