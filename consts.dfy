/** The three store scripts of introspection/generate/consts.go, as state
    transitions: the SQL upsert on the idrecord table (Name -> CurValue) and
    the two Lua scripts on the Redis keyspace, where every value this
    component writes is an integer. */
module IdScripts {

  type Store = map<string, int>

  /** SQLInOrUp: insert (name, step), or on a duplicate key add step to
      CurValue. */
  function InOrUp(db: Store, name: string, step: int): (r: Store)
    ensures r.Keys == db.Keys + {name}
    ensures name in db ==> r[name] == db[name] + step
    ensures name !in db ==> r[name] == step
    ensures forall k :: k in db && k != name ==> r[k] == db[k]
  {
    db[name := if name in db then db[name] + step else step]
  }

  /** With a non-negative step the upsert never lowers a CurValue. */
  lemma InOrUpMonotone(db: Store, name: string, step: int)
    requires step >= 0
    ensures forall k :: k in db ==> k in InOrUp(db, name, step) && InOrUp(db, name, step)[k] >= db[k]
  {
  }

  /** The reply of LuaStInc: "source,num" after an increment, "-1,-1" when
      there is no source or the block would be overrun, or a script error
      when the source exists but the cursor does not (arithmetic on nil). */
  datatype StIncReply = Reply(source: int, num: int) | Exhausted | ScriptError

  datatype Eval = Eval(store: Store, reply: StIncReply)

  /** LuaStInc over KEYS = [srcKey, numKey], ARGV = [step, maxStep]. */
  function StInc(cache: Store, srcKey: string, numKey: string, step: int, maxStep: int): (e: Eval)
    requires srcKey != numKey
    ensures e.reply.Reply? <==> srcKey in cache && numKey in cache && cache[numKey] + step <= cache[srcKey] + maxStep
    ensures e.reply.ScriptError? <==> srcKey in cache && numKey !in cache
    ensures e.reply.Reply? ==>
      && e.store == cache[numKey := cache[numKey] + step]
      && e.reply == Reply(cache[srcKey], e.store[numKey])
      && e.store[numKey] <= e.store[srcKey] + maxStep
    ensures !e.reply.Reply? ==> e.store == cache
  {
    if srcKey !in cache then Eval(cache, Exhausted)
    else if numKey !in cache then Eval(cache, ScriptError)
    else if cache[numKey] + step <= cache[srcKey] + maxStep then
      var next := cache[numKey] + step;
      Eval(cache[numKey := next], Reply(cache[srcKey], next))
    else Eval(cache, Exhausted)
  }

  /** LuaStInc never leaves the cursor beyond the end of its block: if
      num <= source + maxStep held before, it holds after. */
  lemma StIncKeepsBound(cache: Store, srcKey: string, numKey: string, step: int, maxStep: int)
    requires srcKey != numKey
    requires srcKey in cache && numKey in cache && cache[numKey] <= cache[srcKey] + maxStep
    ensures var e := StInc(cache, srcKey, numKey, step, maxStep);
      srcKey in e.store && numKey in e.store && e.store[numKey] <= e.store[srcKey] + maxStep
  {
  }

  /** LuaBuildSource: keep an existing source that is at least start,
      otherwise set it to start; the source therefore never decreases. */
  function BuildSource(cache: Store, srcKey: string, start: int): (r: Store)
    ensures r.Keys == cache.Keys + {srcKey}
    ensures srcKey in cache ==> r[srcKey] == (if cache[srcKey] >= start then cache[srcKey] else start)
    ensures srcKey !in cache ==> r[srcKey] == start
    ensures forall k :: k in cache && k != srcKey ==> r[k] == cache[k]
  {
    if srcKey in cache && cache[srcKey] >= start then cache else cache[srcKey := start]
  }

  /** SETNX: set the key only if it is absent. */
  function SetNX(cache: Store, key: string, v: int): (r: Store)
    ensures r.Keys == cache.Keys + {key}
    ensures r[key] == (if key in cache then cache[key] else v)
    ensures forall k :: k in cache && k != key ==> r[k] == cache[k]
  {
    if key in cache then cache else cache[key := v]
  }
}
