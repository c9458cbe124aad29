/** The segment-cached ID generator of introspection/generate/generater.go as
    pure transitions over two stores: the idrecord table (name -> CurValue,
    the high-water mark handed out by the database) and the Redis keyspace
    holding, per name, the start of the current block ("source") and the
    cursor inside it ("num"). The Generator class in module Generate performs
    the same steps one store operation at a time and is proved equal to these
    functions. */
module GenerateSpec {
  import opened Base
  import opened IdScripts

  /** The block size NewGenerator uses when its argument is not positive. */
  const DefaultMaxCacheStep: int := 10000

  /** NewGenerator's choice of maxCacheStep. */
  function EffectiveMaxCacheStep(arg: int): (m: int)
    ensures m > 0
    ensures arg > 0 ==> m == arg
    ensures arg <= 0 ==> m == DefaultMaxCacheStep
  {
    if arg > 0 then arg else DefaultMaxCacheStep
  }

  const SourceSuffix: string := "source"
  const NumSuffix: string := "num"

  /** buildKey: prefix, name, a colon, suffix. */
  function BuildKey(prefix: string, key: string, suffix: string): (k: string)
    ensures |k| == |prefix| + |key| + 1 + |suffix|
    ensures k[|prefix| + |key|] == ':'
    ensures k[..|prefix|] == prefix && k[|prefix|..|prefix| + |key|] == key
    ensures k[|k| - |suffix|..] == suffix
  {
    prefix + key + ":" + suffix
  }

  /** The source and num keys of distinct names, or of one name, never
      collide: a key determines both its name and its suffix. */
  lemma {:induction false} BuildKeyInjective(prefix: string, k1: string, s1: string, k2: string, s2: string)
    requires s1 == SourceSuffix || s1 == NumSuffix
    requires s2 == SourceSuffix || s2 == NumSuffix
    requires BuildKey(prefix, k1, s1) == BuildKey(prefix, k2, s2)
    ensures k1 == k2 && s1 == s2
  {
    var a := BuildKey(prefix, k1, s1);
    var b := BuildKey(prefix, k2, s2);
    assert a[|a| - 1] == s1[|s1| - 1] by { assert a[|a| - |s1|..][|s1| - 1] == a[|a| - 1]; }
    assert b[|b| - 1] == s2[|s2| - 1] by { assert b[|b| - |s2|..][|s2| - 1] == b[|b| - 1]; }
    assert s1 == s2;
    assert |k1| == |k2|;
    assert k1 == a[|prefix|..|prefix| + |k1|] == b[|prefix|..|prefix| + |k2|] == k2;
  }

  /** The configuration of a Generator (its database and cache handles are the
      stores of IdState). */
  datatype GenConfig = GenConfig(enableCache: bool, maxCacheStep: int, keyPrefix: string)

  function SourceKey(cfg: GenConfig, key: string): string
  {
    BuildKey(cfg.keyPrefix, key, SourceSuffix)
  }

  function NumKey(cfg: GenConfig, key: string): string
  {
    BuildKey(cfg.keyPrefix, key, NumSuffix)
  }

  lemma SourceNumDistinct(cfg: GenConfig, key: string)
    ensures SourceKey(cfg, key) != NumKey(cfg, key)
  {
    if SourceKey(cfg, key) == NumKey(cfg, key) {
      BuildKeyInjective(cfg.keyPrefix, key, SourceSuffix, key, NumSuffix);
    }
  }

  /** The contents of both stores. */
  datatype IdState = IdState(db: Store, cache: Store)

  /** CurValue of a name, an absent row counting as 0 (the upsert then
      inserts step, which is 0 + step). */
  function DbValue(db: Store, key: string): int
  {
    if key in db then db[key] else 0
  }

  /** Every entry outside `touched` is the same in both stores. */
  predicate Untouched(before: Store, after: Store, touched: set<string>)
  {
    && (forall k :: k in before && k !in touched ==> k in after && after[k] == before[k])
    && (forall k :: k in after && k !in touched ==> k in before)
  }

  /** How a refill treats an existing cursor: as written (SETNX keeps it), or
      corrected: keep it only when the old block ends exactly where the new
      one starts, and otherwise move it to the start of the new block, past
      the values the database handed out in between. */
  datatype Refill = AsWritten | SkipGap

  /** The error LuaStInc raises when the source exists but the cursor does not. */
  const ScriptErrorText: string := "ERR Error running script: attempt to perform arithmetic on a nil value"

  /** The error Cursor reports for a missing cursor key. */
  const NilReplyText: string := "redis: nil"

  function IncreaseFailedText(key: string): string
  {
    "Generator:key[" + key + "]increase result is err"
  }

  /** dbIncrease: run the upsert in a transaction and read the row back. A
      failure of any statement rolls the transaction back. */
  function DbIncrease(db: Store, key: string, step: int, fault: Option<string>): (r: (Store, Result<int>))
    ensures fault.Some? ==> r == (db, Failure(fault.value))
    ensures fault.None? ==> r.0 == InOrUp(db, key, step) && r.1 == Success(r.0[key])
    ensures fault.None? ==> r.1.value == DbValue(db, key) + step
  {
    if fault.Some? then (db, Failure(fault.value))
    else
      var d := InOrUp(db, key, step);
      (d, Success(d[key]))
  }

  /** cacheIncrease: LuaStInc on the name's keys; the second field of the
      reply is the new cursor, or -1 when the block is missing or would be
      overrun. */
  function CacheIncrease(cfg: GenConfig, cache: Store, key: string, step: int, maxStep: int): (r: (Store, Result<int>))
    ensures r.1.Failure? <==> SourceKey(cfg, key) in cache && NumKey(cfg, key) !in cache
    ensures r.1.Failure? ==> r.0 == cache
    ensures r.0.Keys == cache.Keys
    ensures forall k :: k in cache && k != NumKey(cfg, key) ==> r.0[k] == cache[k]
  {
    SourceNumDistinct(cfg, key);
    var e := StInc(cache, SourceKey(cfg, key), NumKey(cfg, key), step, maxStep);
    match e.reply
    case Reply(_, n) => (e.store, Success(n))
    case Exhausted => (e.store, Success(-1))
    case ScriptError => (e.store, Failure(ScriptErrorText))
  }

  /** cacheBuildSource: LuaBuildSource on the source key, then the cursor is
      set to start, only if absent (as written) or raised to start (the
      corrected policy). */
  function CacheBuildSource(policy: Refill, cfg: GenConfig, cache: Store, key: string, start: int): (r: Store)
    ensures SourceKey(cfg, key) in r && NumKey(cfg, key) in r
    ensures r[SourceKey(cfg, key)] >= start
    ensures forall k :: k in cache && k != SourceKey(cfg, key) && k != NumKey(cfg, key) ==> k in r && r[k] == cache[k]
  {
    SourceNumDistinct(cfg, key);
    var c := BuildSource(cache, SourceKey(cfg, key), start);
    match policy
    case AsWritten => SetNX(c, NumKey(cfg, key), start)
    case SkipGap =>
      var s := SourceKey(cfg, key);
      var n := NumKey(cfg, key);
      if s in cache && n in cache && cache[s] + cfg.maxCacheStep >= start then c else c[n := start]
  }

  /** The closure increase runs under the per-name lock: try the cache again;
      on -1 take a block of maxCacheStep from the database, install it in the
      cache and try once more. None stands for the nil the closure yields on
      any error. */
  function IncreaseLocked(policy: Refill, cfg: GenConfig, st: IdState, key: string, step: int, dbFault: Option<string>): (r: (IdState, Option<int>))
    ensures Untouched(st.db, r.0.db, {key})
    ensures Untouched(st.cache, r.0.cache, {SourceKey(cfg, key), NumKey(cfg, key)})
  {
    var (c1, r1) := CacheIncrease(cfg, st.cache, key, step, cfg.maxCacheStep);
    if r1.Failure? then (IdState(st.db, c1), None)
    else if r1.value != -1 then (IdState(st.db, c1), Some(r1.value))
    else
      var (d2, r2) := DbIncrease(st.db, key, cfg.maxCacheStep, dbFault);
      if r2.Failure? then (IdState(d2, c1), None)
      else
        var c3 := CacheBuildSource(policy, cfg, c1, key, r2.value - cfg.maxCacheStep);
        var (c4, r4) := CacheIncrease(cfg, c3, key, step, cfg.maxCacheStep);
        (IdState(d2, c4), if r4.Failure? then None else Some(r4.value))
  }

  /** Take: the database path when the cache is off or the step is at least a
      block, otherwise the cache path with a locked refill on -1. A lock that
      times out lets the closure's effects stand but yields nil. */
  function Take(policy: Refill, cfg: GenConfig, st: IdState, key: string, step: int, dbFault: Option<string>, lockTimedOut: bool): (r: (IdState, Result<int>))
    ensures !cfg.enableCache || step >= cfg.maxCacheStep ==>
      && r.0.cache == st.cache
      && (dbFault.None? ==> r.0.db == InOrUp(st.db, key, step) && r.1 == Success(DbValue(st.db, key) + step))
      && (dbFault.Some? ==> r == (st, Failure(dbFault.value)))
    ensures Untouched(st.db, r.0.db, {key})
    ensures Untouched(st.cache, r.0.cache, {SourceKey(cfg, key), NumKey(cfg, key)})
  {
    if !cfg.enableCache || step >= cfg.maxCacheStep then
      var (d, r) := DbIncrease(st.db, key, step, dbFault);
      (IdState(d, st.cache), r)
    else
      var (c1, r1) := CacheIncrease(cfg, st.cache, key, step, cfg.maxCacheStep);
      if r1.Failure? || r1.value != -1 then (IdState(st.db, c1), r1)
      else
        var (st2, v) := IncreaseLocked(policy, cfg, IdState(st.db, c1), key, step, dbFault);
        (st2, if lockTimedOut || v.None? then Failure(IncreaseFailedText(key)) else Success(v.value))
  }

  /** Cursor / cacheCursor: the name's cursor, or Redis's nil reply. */
  function Cursor(cfg: GenConfig, cache: Store, key: string): (r: Result<int>)
    ensures r.Success? <==> NumKey(cfg, key) in cache
    ensures r.Success? ==> r.value == cache[NumKey(cfg, key)]
  {
    if NumKey(cfg, key) in cache then Success(cache[NumKey(cfg, key)]) else Failure(NilReplyText)
  }
}
