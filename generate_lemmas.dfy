/** What the segment protocol of introspection/generate guarantees: the cursor
    never passes the end of its block, a refill takes a block no one has seen,
    cache-mode Takes advance the cursor by exactly their step, and the values
    handed out never overlap. */
module GenerateLemmas {
  import opened Base
  import opened IdScripts
  import opened GenerateSpec

  /** The invariant of every state reached from empty stores by Takes with
      non-negative steps: source and cursor exist together, the cursor is
      inside its block, the block lies below the database's high-water mark,
      and no value is negative. */
  predicate Coherent(cfg: GenConfig, st: IdState, key: string)
  {
    var s := SourceKey(cfg, key);
    var n := NumKey(cfg, key);
    && (s in st.cache <==> n in st.cache)
    && DbValue(st.db, key) >= 0
    && (s in st.cache ==>
          && 0 <= st.cache[n] <= st.cache[s] + cfg.maxCacheStep
          && st.cache[s] + cfg.maxCacheStep <= DbValue(st.db, key))
  }

  /** No database-path Take has moved the high-water mark past the block:
      the block ends exactly at it. */
  predicate Aligned(cfg: GenConfig, st: IdState, key: string)
  {
    SourceKey(cfg, key) in st.cache ==> st.cache[SourceKey(cfg, key)] + cfg.maxCacheStep == DbValue(st.db, key)
  }

  lemma EmptyStoresCoherent(cfg: GenConfig, key: string)
    ensures Coherent(cfg, IdState(map[], map[]), key) && Aligned(cfg, IdState(map[], map[]), key)
  {
  }

  /** A cache increment keeps the invariant; it either changes nothing or
      moves the cursor by step and returns the new cursor. */
  lemma CacheIncreaseStep(cfg: GenConfig, st: IdState, key: string, step: int)
    requires Coherent(cfg, st, key) && step >= 0
    ensures var (c, r) := CacheIncrease(cfg, st.cache, key, step, cfg.maxCacheStep);
      && r.Success?
      && Coherent(cfg, IdState(st.db, c), key)
      && (Aligned(cfg, st, key) ==> Aligned(cfg, IdState(st.db, c), key))
      && (r.value == -1 ==> c == st.cache)
      && (r.value != -1 ==>
            && NumKey(cfg, key) in st.cache
            && c == st.cache[NumKey(cfg, key) := st.cache[NumKey(cfg, key)] + step]
            && r.value == c[NumKey(cfg, key)])
      && (NumKey(cfg, key) in st.cache && st.cache[NumKey(cfg, key)] + step <= st.cache[SourceKey(cfg, key)] + cfg.maxCacheStep ==>
            r.value == st.cache[NumKey(cfg, key)] + step)
  {
    SourceNumDistinct(cfg, key);
  }

  /** A refill takes the next maxCacheStep values from the database and makes
      them the cache's block: the new source is the old high-water mark, so
      the block (source, source + maxCacheStep] was never handed out by the
      database before. The cursor stays where it was, unless the corrected
      policy finds a gap between the old block and the new one. */
  lemma RefillBlock(policy: Refill, cfg: GenConfig, st: IdState, key: string)
    requires cfg.maxCacheStep > 0 && Coherent(cfg, st, key)
    ensures var high := DbValue(st.db, key);
      var d := InOrUp(st.db, key, cfg.maxCacheStep);
      var c := CacheBuildSource(policy, cfg, st.cache, key, d[key] - cfg.maxCacheStep);
      && d[key] == high + cfg.maxCacheStep
      && c[SourceKey(cfg, key)] == high
      && c[NumKey(cfg, key)] ==
           (if NumKey(cfg, key) in st.cache && (policy == AsWritten || Aligned(cfg, st, key))
            then st.cache[NumKey(cfg, key)] else high)
      && Coherent(cfg, IdState(d, c), key)
      && Aligned(cfg, IdState(d, c), key)
  {
    SourceNumDistinct(cfg, key);
  }

  /** The cursor a successful cache-mode Take leaves behind and returns: one
      step past the old cursor when the block has room, or when a refill
      keeps the cursor; otherwise one step past the start of the new block. */
  function NextCursor(policy: Refill, cfg: GenConfig, st: IdState, key: string, step: int): int
  {
    var n := NumKey(cfg, key);
    if n in st.cache && (policy == AsWritten || Aligned(cfg, st, key)
                         || st.cache[n] + step <= st.cache[SourceKey(cfg, key)] + cfg.maxCacheStep)
    then st.cache[n] + step
    else DbValue(st.db, key) + step
  }

  lemma IncreaseLockedStep(policy: Refill, cfg: GenConfig, st: IdState, key: string, step: int, dbFault: Option<string>)
    requires 0 <= step < cfg.maxCacheStep && Coherent(cfg, st, key)
    ensures var (s, v) := IncreaseLocked(policy, cfg, st, key, step, dbFault);
      && Coherent(cfg, s, key)
      && (Aligned(cfg, st, key) ==> Aligned(cfg, s, key))
      && (dbFault.Some? ==> v.Some? || s == st)
      && (dbFault.None? ==>
            && v == Some(NextCursor(policy, cfg, st, key, step))
            && s.cache[NumKey(cfg, key)] == v.value)
  {
    SourceNumDistinct(cfg, key);
    CacheIncreaseStep(cfg, st, key, step);
    var (c1, r1) := CacheIncrease(cfg, st.cache, key, step, cfg.maxCacheStep);
    if r1.value == -1 && dbFault.None? {
      RefillBlock(policy, cfg, st, key);
      var d2 := InOrUp(st.db, key, cfg.maxCacheStep);
      var c3 := CacheBuildSource(policy, cfg, c1, key, d2[key] - cfg.maxCacheStep);
      CacheIncreaseStep(cfg, IdState(d2, c3), key, step);
    }
  }

  /** Take keeps the invariant on every path, faults and lock timeouts
      included; cache-mode Takes also keep the block aligned with the
      database. */
  lemma TakeKeepsCoherent(policy: Refill, cfg: GenConfig, st: IdState, key: string, step: int, dbFault: Option<string>, lockTimedOut: bool)
    requires cfg.maxCacheStep > 0 && step >= 0 && Coherent(cfg, st, key)
    ensures Coherent(cfg, Take(policy, cfg, st, key, step, dbFault, lockTimedOut).0, key)
    ensures cfg.enableCache && step < cfg.maxCacheStep && Aligned(cfg, st, key) ==>
      Aligned(cfg, Take(policy, cfg, st, key, step, dbFault, lockTimedOut).0, key)
  {
    if cfg.enableCache && step < cfg.maxCacheStep {
      CacheIncreaseStep(cfg, st, key, step);
      IncreaseLockedStep(policy, cfg, st, key, step, dbFault);
    }
  }

  /** A cache-mode Take with working stores returns the new cursor, one step
      past the old one whenever the block has room or the refill keeps the
      cursor. */
  lemma TakeAdvancesCursor(policy: Refill, cfg: GenConfig, st: IdState, key: string, step: int)
    requires cfg.enableCache && 0 <= step < cfg.maxCacheStep && Coherent(cfg, st, key)
    ensures var (s, r) := Take(policy, cfg, st, key, step, None, false);
      && r == Success(NextCursor(policy, cfg, st, key, step))
      && NumKey(cfg, key) in s.cache && s.cache[NumKey(cfg, key)] == r.value
  {
    CacheIncreaseStep(cfg, st, key, step);
    IncreaseLockedStep(policy, cfg, st, key, step, None);
  }

  /** n cache-mode Takes of the same step on working stores. */
  function TakeMany(policy: Refill, cfg: GenConfig, st: IdState, key: string, step: int, n: nat): IdState
    decreases n
  {
    if n == 0 then st else TakeMany(policy, cfg, Take(policy, cfg, st, key, step, None, false).0, key, step, n - 1)
  }

  /** After n Takes of size step the cursor has moved by exactly n * step, as
      long as each refill keeps the cursor (always as written; with the
      corrected policy, when no database-path Take intervened). */
  lemma {:induction false} TakeManyCursor(policy: Refill, cfg: GenConfig, st: IdState, key: string, step: int, n: nat)
    requires cfg.enableCache && 0 <= step < cfg.maxCacheStep && Coherent(cfg, st, key)
    requires NumKey(cfg, key) in st.cache
    requires policy == AsWritten || Aligned(cfg, st, key)
    decreases n
    ensures var s := TakeMany(policy, cfg, st, key, step, n);
      NumKey(cfg, key) in s.cache && s.cache[NumKey(cfg, key)] == st.cache[NumKey(cfg, key)] + n * step
  {
    if n > 0 {
      var s1 := Take(policy, cfg, st, key, step, None, false).0;
      TakeAdvancesCursor(policy, cfg, st, key, step);
      TakeKeepsCoherent(policy, cfg, st, key, step, None, false);
      TakeManyCursor(policy, cfg, s1, key, step, n - 1);
    }
  }

  /** The values a Take that returns v reserves: the step values ending at v. */
  function Range(v: int, step: int): (r: set<int>)
    ensures forall i :: i in r <==> v - step < i <= v
    decreases step
  {
    if step <= 0 then {} else {v} + Range(v - 1, step - 1)
  }

  /** Safe for the values already handed out: all lie at or below the
      database's high-water mark, and none lies between the cursor and the
      end of the block, which is where the cache hands out values next. */
  predicate Safe(cfg: GenConfig, st: IdState, key: string, issued: set<int>)
  {
    && Coherent(cfg, st, key)
    && (forall v :: v in issued ==> v <= DbValue(st.db, key))
    && (SourceKey(cfg, key) in st.cache ==>
          forall v :: v in issued ==>
            v <= st.cache[NumKey(cfg, key)] || st.cache[SourceKey(cfg, key)] + cfg.maxCacheStep < v)
  }

  lemma SafeShrinks(cfg: GenConfig, st: IdState, key: string, fewer: set<int>, issued: set<int>)
    requires fewer <= issued && Safe(cfg, st, key, issued)
    ensures Safe(cfg, st, key, fewer)
  {
  }

  /** A cache increment that moves the cursor reserves values no one holds. */
  lemma CacheIncreaseFresh(cfg: GenConfig, st: IdState, key: string, step: int, issued: set<int>)
    requires step >= 0 && Safe(cfg, st, key, issued)
    ensures var (c, r) := CacheIncrease(cfg, st.cache, key, step, cfg.maxCacheStep);
      r.Success? && r.value != -1 ==>
        Range(r.value, step) !! issued && Safe(cfg, IdState(st.db, c), key, issued + Range(r.value, step))
  {
    SourceNumDistinct(cfg, key);
    CacheIncreaseStep(cfg, st, key, step);
  }

  /** A refill keeps Safe under the corrected policy, and as written while
      the block is aligned with the database. */
  lemma RefillSafe(policy: Refill, cfg: GenConfig, st: IdState, key: string, issued: set<int>)
    requires cfg.maxCacheStep > 0 && Safe(cfg, st, key, issued)
    requires policy == SkipGap || Aligned(cfg, st, key)
    ensures var d := InOrUp(st.db, key, cfg.maxCacheStep);
      var c := CacheBuildSource(policy, cfg, st.cache, key, d[key] - cfg.maxCacheStep);
      Safe(cfg, IdState(d, c), key, issued)
  {
    RefillBlock(policy, cfg, st, key);
  }

  /** The locked refill path keeps Safe and, when it yields a value, that
      value's range is fresh. */
  lemma IncreaseLockedFresh(policy: Refill, cfg: GenConfig, st: IdState, key: string, step: int, dbFault: Option<string>, issued: set<int>)
    requires 0 < step < cfg.maxCacheStep && Safe(cfg, st, key, issued)
    requires policy == SkipGap || Aligned(cfg, st, key)
    ensures var (s, v) := IncreaseLocked(policy, cfg, st, key, step, dbFault);
      && (v.None? ==> Safe(cfg, s, key, issued))
      && (v.Some? ==> Range(v.value, step) !! issued && Safe(cfg, s, key, issued + Range(v.value, step)))
  {
    SourceNumDistinct(cfg, key);
    CacheIncreaseStep(cfg, st, key, step);
    CacheIncreaseFresh(cfg, st, key, step, issued);
    var (c1, r1) := CacheIncrease(cfg, st.cache, key, step, cfg.maxCacheStep);
    if r1.value == -1 && dbFault.None? {
      RefillSafe(policy, cfg, st, key, issued);
      RefillBlock(policy, cfg, st, key);
      var d2 := InOrUp(st.db, key, cfg.maxCacheStep);
      var c3 := CacheBuildSource(policy, cfg, c1, key, d2[key] - cfg.maxCacheStep);
      CacheIncreaseStep(cfg, IdState(d2, c3), key, step);
      CacheIncreaseFresh(cfg, IdState(d2, c3), key, step, issued);
    }
  }

  /** With the corrected refill, no two Takes on a name ever reserve a common
      value, whatever mix of database-path and cache-path Takes, store faults
      and lock timeouts occurs. As written, the same holds while every Take
      goes through the cache (and the block therefore stays aligned). */
  lemma TakeNeverRepeats(policy: Refill, cfg: GenConfig, st: IdState, key: string, step: int, dbFault: Option<string>, lockTimedOut: bool, issued: set<int>)
    requires cfg.maxCacheStep > 0 && step > 0 && Safe(cfg, st, key, issued)
    requires policy == SkipGap || (cfg.enableCache && step < cfg.maxCacheStep && Aligned(cfg, st, key))
    ensures var (s, r) := Take(policy, cfg, st, key, step, dbFault, lockTimedOut);
      && (r.Success? ==> Range(r.value, step) !! issued && Safe(cfg, s, key, issued + Range(r.value, step)))
      && (r.Failure? ==> Safe(cfg, s, key, issued))
  {
    if cfg.enableCache && step < cfg.maxCacheStep {
      CacheIncreaseStep(cfg, st, key, step);
      CacheIncreaseFresh(cfg, st, key, step, issued);
      IncreaseLockedFresh(policy, cfg, st, key, step, dbFault, issued);
      var (s, v) := IncreaseLocked(policy, cfg, st, key, step, dbFault);
      if v.Some? {
        SafeShrinks(cfg, s, key, issued, issued + Range(v.value, step));
      }
    }
  }

  /** Five Takes on "k" with maxCacheStep 3, starting from empty stores; the
      second has step 3 and so goes to the database. */
  function FiveTakes(policy: Refill): seq<Result<int>>
  {
    var cfg := GenConfig(true, 3, "");
    var (s1, r1) := Take(policy, cfg, IdState(map[], map[]), "k", 1, None, false);
    var (s2, r2) := Take(policy, cfg, s1, "k", 3, None, false);
    var (s3, r3) := Take(policy, cfg, s2, "k", 2, None, false);
    var (s4, r4) := Take(policy, cfg, s3, "k", 2, None, false);
    var (s5, r5) := Take(policy, cfg, s4, "k", 1, None, false);
    [r1, r2, r3, r4, r5]
  }

  /** The entries of one name in both stores. */
  predicate Holds(cfg: GenConfig, st: IdState, key: string, high: int, source: int, cursor: int)
  {
    && key in st.db && st.db[key] == high
    && SourceKey(cfg, key) in st.cache && st.cache[SourceKey(cfg, key)] == source
    && NumKey(cfg, key) in st.cache && st.cache[NumKey(cfg, key)] == cursor
  }

  /** As written, a database-path Take followed by a refill hands out the
      value 6 twice: the refill keeps the cursor at 3 although the database
      path already handed out 4..6. */
  lemma {:induction false} AsWrittenRepeats()
    ensures FiveTakes(AsWritten) == [Success(1), Success(6), Success(3), Success(5), Success(6)]
  {
    var cfg := GenConfig(true, 3, "");
    SourceNumDistinct(cfg, "k");
    var (s1, r1) := Take(AsWritten, cfg, IdState(map[], map[]), "k", 1, None, false);
    assert r1 == Success(1) && Holds(cfg, s1, "k", 3, 0, 1);
    var (s2, r2) := Take(AsWritten, cfg, s1, "k", 3, None, false);
    assert r2 == Success(6) && Holds(cfg, s2, "k", 6, 0, 1);
    var (s3, r3) := Take(AsWritten, cfg, s2, "k", 2, None, false);
    assert r3 == Success(3) && Holds(cfg, s3, "k", 6, 0, 3);
    var (s4, r4) := Take(AsWritten, cfg, s3, "k", 2, None, false);
    assert r4 == Success(5) && Holds(cfg, s4, "k", 9, 6, 5);
    var (s5, r5) := Take(AsWritten, cfg, s4, "k", 1, None, false);
    assert r5 == Success(6);
  }

  /** With the corrected refill the same Takes reserve disjoint ranges. */
  lemma {:induction false} SkipGapDistinct()
    ensures FiveTakes(SkipGap) == [Success(1), Success(6), Success(3), Success(8), Success(9)]
  {
    var cfg := GenConfig(true, 3, "");
    SourceNumDistinct(cfg, "k");
    var (s1, r1) := Take(SkipGap, cfg, IdState(map[], map[]), "k", 1, None, false);
    assert r1 == Success(1) && Holds(cfg, s1, "k", 3, 0, 1);
    var (s2, r2) := Take(SkipGap, cfg, s1, "k", 3, None, false);
    assert r2 == Success(6) && Holds(cfg, s2, "k", 6, 0, 1);
    var (s3, r3) := Take(SkipGap, cfg, s2, "k", 2, None, false);
    assert r3 == Success(3) && Holds(cfg, s3, "k", 6, 0, 3);
    var (s4, r4) := Take(SkipGap, cfg, s3, "k", 2, None, false);
    assert r4 == Success(8) && Holds(cfg, s4, "k", 9, 6, 8);
    var (s5, r5) := Take(SkipGap, cfg, s4, "k", 1, None, false);
    assert r5 == Success(9);
  }
}
