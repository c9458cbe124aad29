/** The functional options of introspection/compense/compensation_option.go:
    each option assigns one field of a Compensation, and NewCompensation
    applies them in order to a zero-valued engine. */
module CompensationOption {
  import Base
  import C = Compensation

  datatype Option =
    | WithDB(db: C.TaskDB?)
    | WithMargin(margin: int)
    | WithFuncMap(funcMap: Base.Option<map<string, C.Handler>>)
    | WithExecCallBack(execCallBack: Base.Option<C.Callback>)
    | WithNewAsyncCtx(newAsyncCtx: Base.Option<C.AsyncCtx>)

  /** The settings of `&Compensation{}`. */
  const Zero: C.Config := C.Config(null, 0, Base.None, Base.None, Base.None)

  /** Two options that assign the same field. */
  predicate SameField(o1: Option, o2: Option) {
    || (o1.WithDB? && o2.WithDB?)
    || (o1.WithMargin? && o2.WithMargin?)
    || (o1.WithFuncMap? && o2.WithFuncMap?)
    || (o1.WithExecCallBack? && o2.WithExecCallBack?)
    || (o1.WithNewAsyncCtx? && o2.WithNewAsyncCtx?)
  }

  /** The field o assigns holds o's value in cfg. */
  predicate Holds(cfg: C.Config, o: Option) {
    match o
    case WithDB(v) => cfg.db == v
    case WithMargin(v) => cfg.margin == v
    case WithFuncMap(v) => cfg.funcMap == v
    case WithExecCallBack(v) => cfg.execCallBack == v
    case WithNewAsyncCtx(v) => cfg.newAsyncCtx == v
  }

  /** `opt.apply(c)` on the settings: the option's field takes its value and
      every other field keeps its own. */
  function ApplyTo(cfg: C.Config, o: Option): (r: C.Config)
    ensures Holds(r, o)
    ensures !o.WithDB? ==> r.db == cfg.db
    ensures !o.WithMargin? ==> r.margin == cfg.margin
    ensures !o.WithFuncMap? ==> r.funcMap == cfg.funcMap
    ensures !o.WithExecCallBack? ==> r.execCallBack == cfg.execCallBack
    ensures !o.WithNewAsyncCtx? ==> r.newAsyncCtx == cfg.newAsyncCtx
  {
    match o
    case WithDB(v) => cfg.(db := v)
    case WithMargin(v) => cfg.(margin := v)
    case WithFuncMap(v) => cfg.(funcMap := v)
    case WithExecCallBack(v) => cfg.(execCallBack := v)
    case WithNewAsyncCtx(v) => cfg.(newAsyncCtx := v)
  }

  /** The options applied in the order given. */
  function ApplyAll(cfg: C.Config, opts: seq<Option>): C.Config
    decreases |opts|
  {
    if opts == [] then cfg else ApplyAll(ApplyTo(cfg, opts[0]), opts[1..])
  }

  lemma {:induction false} ApplyAllAppend(cfg: C.Config, a: seq<Option>, b: seq<Option>)
    ensures ApplyAll(cfg, a + b) == ApplyAll(ApplyAll(cfg, a), b)
    decreases |a|
  {
    if a != [] {
      assert (a + b)[1..] == a[1..] + b;
      ApplyAllAppend(ApplyTo(cfg, a[0]), a[1..], b);
    } else {
      assert a + b == b;
    }
  }

  /** An option whose field no later option assigns decides that field. */
  lemma {:induction false} ApplyAllKeeps(cfg: C.Config, o: Option, post: seq<Option>)
    requires Holds(cfg, o)
    requires forall i :: 0 <= i < |post| ==> !SameField(post[i], o)
    ensures Holds(ApplyAll(cfg, post), o)
    decreases |post|
  {
    if post != [] {
      ApplyAllKeeps(ApplyTo(cfg, post[0]), o, post[1..]);
    }
  }

  /** When several options assign one field, the last of them wins. */
  lemma LastWins(cfg: C.Config, pre: seq<Option>, o: Option, post: seq<Option>)
    requires forall i :: 0 <= i < |post| ==> !SameField(post[i], o)
    ensures Holds(ApplyAll(cfg, pre + [o] + post), o)
  {
    ApplyAllAppend(cfg, pre + [o], post);
    ApplyAllAppend(cfg, pre, [o]);
    ApplyAllKeeps(ApplyAll(cfg, pre + [o]), o, post);
  }

  /** A field no option assigns keeps its zero value. */
  lemma {:induction false} UnsetFieldKeepsZero(opts: seq<Option>)
    requires forall i :: 0 <= i < |opts| ==> !opts[i].WithMargin?
    ensures ApplyAll(Zero, opts).margin == 0
  {
    ApplyAllKeeps(Zero, WithMargin(0), opts);
  }

  method Apply(o: Option, c: C.Compensation)
    modifies c
    ensures c.Settings() == ApplyTo(old(c.Settings()), o)
  {
    match o
    case WithDB(v) => c.db := v;
    case WithMargin(v) => c.margin := v;
    case WithFuncMap(v) => c.funcMap := v;
    case WithExecCallBack(v) => c.execCallBack := v;
    case WithNewAsyncCtx(v) => c.newAsyncCtx := v;
  }

  /** NewCompensation: a zero-valued engine with the options applied in order. */
  method NewCompensation(opts: seq<Option>) returns (c: C.Compensation)
    ensures fresh(c)
    ensures c.Settings() == ApplyAll(Zero, opts)
  {
    c := new C.Compensation();
    for i := 0 to |opts|
      invariant c.Settings() == ApplyAll(Zero, opts[..i])
    {
      ApplyAllAppend(Zero, opts[..i], [opts[i]]);
      assert opts[..i + 1] == opts[..i] + [opts[i]];
      Apply(opts[i], c);
    }
    assert opts[..|opts|] == opts;
  }

  /** A registry installed by WithFuncMap refuses a later Register of any of
      its names. */
  method RegisterAfterWithFuncMap(m: map<string, C.Handler>, name: string, h: C.Handler)
    returns (err: Base.Option<string>)
    requires name in m
    ensures err == Base.Some(name + " func has registed")
  {
    var c := NewCompensation([WithFuncMap(Base.Some(m))]);
    err := c.Register(name, h);
  }
}
