/**
 * Steps as the wizard sees them: what a step's prereq(), save() and display()
 * do, the slot the step dictionary holds for a key (a step class, a ready
 * instance, or a falsy value), and the lazy materialisation performed by
 * get_step_object_by_key (wizard/__init__.py:164-192).
 */
module Steps {
  import opened Wrappers

  type Key = string

  /** Plain values passed as constructor, url or template arguments. */
  datatype Value = Int(i: int) | Str(s: string)

  /** The exceptions of the core: Http404, ValueError, IndexError, RecursionError. */
  datatype Error = NotFound | ValueError | IndexError | RecursionLimit

  /**
   * What prereq() does: return, or raise PrereqMissing(step, request, message).
   * `flash` is the message PrereqMissing forwards to the messages framework,
   * present only when it was raised with both a request and a message.
   */
  datatype PrereqOutcome = Satisfied | Missing(target: Option<Key>, flash: Option<string>)

  /** What save() does: return, or raise SaveStepException. */
  datatype SaveOutcome = Saved | SaveFailed

  /** The observable behaviour of one step; `display` is display() or {} when it returns None. */
  datatype Behaviour = Behaviour(prereq: PrereqOutcome, save: SaveOutcome, display: map<string, Value>)

  /** How instantiate_step calls the step class. */
  datatype CtorCall =
    | NoArgs
    | Positional(args: seq<Value>)
    | Keywords(kwargs: map<string, Value>)
    | Both(args: seq<Value>, kwargs: map<string, Value>)

  /**
   * A step instance. `ctor` is the constructor call when the wizard built it;
   * `key`, `owner` and `currentStep` are the `_key`, `_wizard` and
   * `_current_step` attributes the wizard stamps on instances it builds.
   */
  datatype Instance = Instance(
    behaviour: Behaviour,
    ctor: Option<CtorCall>,
    key: Option<Key>,
    owner: Option<object>,
    currentStep: Option<Key>)

  /** A value of the step dictionary: a step class, an instance, or a falsy value such as None. */
  datatype Slot = Factory(cls: Behaviour) | Ready(instance: Instance) | Falsy

  /** The wizard state instantiation and stamping read: step init args and the requested step. */
  datatype Context = Context(args: seq<Value>, kwargs: map<string, Value>, currentStep: Option<Key>, owner: object)

  /** Calls the wizard makes on steps and the signals and messages it sends, in order. */
  datatype Event =
    | PrereqCalled(key: Key)
    | Flash(message: string)
    | PrereqSignal(key: Key)
    | PreSave(key: Key)
    | SaveCalled(key: Key)
    | PostSave(key: Key)
    | PreDisplay(key: Key)
    | DisplayCalled(key: Key)
    | PostDisplay(key: Key)
    | TemplateCalled(key: Key)

  predicate Truthy(s: Slot) {
    !s.Falsy?
  }

  function BehaviourOf(s: Slot): Behaviour
    requires Truthy(s)
  {
    match s
    case Factory(b) => b
    case Ready(inst) => inst.behaviour
  }

  function PassedArgs(c: CtorCall): seq<Value> {
    match c
    case Positional(a) => a
    case Both(a, _) => a
    case _ => []
  }

  function PassedKwargs(c: CtorCall): map<string, Value> {
    match c
    case Keywords(kw) => kw
    case Both(_, kw) => kw
    case _ => map[]
  }

  /**
   * The constructor call instantiate_step chooses: it passes a group of
   * arguments exactly when that group is non-empty, and passes it whole.
   */
  function InstantiateCall(args: seq<Value>, kwargs: map<string, Value>): (c: CtorCall)
    ensures PassedArgs(c) == args && PassedKwargs(c) == kwargs
    ensures (c.Positional? || c.Both?) <==> args != []
    ensures (c.Keywords? || c.Both?) <==> kwargs != map[]
  {
    if args != [] && kwargs != map[] then Both(args, kwargs)
    else if args != [] then Positional(args)
    else if kwargs != map[] then Keywords(kwargs)
    else NoArgs
  }

  /**
   * The slot get_step_object_by_key leaves behind for `key`: a class is
   * replaced by a stamped instance built with the wizard's init args; an
   * instance is kept as it is.
   */
  function Materialize(s: Slot, key: Key, ctx: Context): (r: Slot)
    requires Truthy(s)
    ensures r.Ready? && BehaviourOf(r) == BehaviourOf(s)
    ensures s.Ready? ==> r == s
    ensures s.Factory? ==> r.instance.key == Some(key) && r.instance.owner == Some(ctx.owner)
                           && r.instance.currentStep == ctx.currentStep
                           && r.instance.ctor == Some(InstantiateCall(ctx.args, ctx.kwargs))
  {
    match s
    case Factory(b) =>
      Ready(Instance(b, Some(InstantiateCall(ctx.args, ctx.kwargs)), Some(key), Some(ctx.owner), ctx.currentStep))
    case Ready(_) => s
  }

  /** A second materialisation changes nothing: the instance is memoised. */
  lemma MaterializeIdempotent(s: Slot, key: Key, ctx: Context, ctx': Context)
    requires Truthy(s)
    ensures Materialize(Materialize(s, key, ctx), key, ctx') == Materialize(s, key, ctx)
  {
  }

  /** The dictionary after get_step_object_by_key(k) succeeded, or unchanged when it raised. */
  function MaterializeKey(slots: map<Key, Slot>, k: Key, ctx: Context): map<Key, Slot> {
    if k in slots && Truthy(slots[k]) then slots[k := Materialize(slots[k], k, ctx)] else slots
  }

  lemma MaterializeKeyPointwise(slots: map<Key, Slot>, k: Key, ctx: Context)
    ensures var r := MaterializeKey(slots, k, ctx);
      && r.Keys == slots.Keys
      && forall j :: j in slots ==>
           r[j] == (if j == k && Truthy(slots[j]) then Materialize(slots[j], j, ctx) else slots[j])
  {
  }

  /**
   * The dictionary after fetching the objects of `ks` in order: each truthy
   * slot named in `ks` holds the materialisation of its original content,
   * whatever the order and repetitions, and no other slot changes.
   */
  function MaterializeAll(slots: map<Key, Slot>, ks: seq<Key>, ctx: Context): map<Key, Slot>
    decreases |ks|
  {
    if ks == [] then slots else MaterializeAll(MaterializeKey(slots, ks[0], ctx), ks[1..], ctx)
  }

  /**
   * The dictionary after fetching the objects of `ks` in order: each truthy
   * slot named in `ks` holds the materialisation of its original content,
   * whatever the order and repetitions, and no other slot changes.
   */
  lemma {:induction false} MaterializeAllPointwise(slots: map<Key, Slot>, ks: seq<Key>, ctx: Context)
    ensures var r := MaterializeAll(slots, ks, ctx);
      && r.Keys == slots.Keys
      && forall j :: j in slots ==>
           r[j] == (if j in ks && Truthy(slots[j]) then Materialize(slots[j], j, ctx) else slots[j])
    decreases |ks|
  {
    if ks != [] {
      var first := MaterializeKey(slots, ks[0], ctx);
      MaterializeKeyPointwise(slots, ks[0], ctx);
      MaterializeAllPointwise(first, ks[1..], ctx);
      assert forall j :: j in ks <==> j == ks[0] || j in ks[1..];
    }
  }

  /** After fetching `ks`, slot `k` is as truthy as before, and materialising it gives the same instance. */
  lemma MaterializeAllSlot(slots: map<Key, Slot>, ks: seq<Key>, k: Key, ctx: Context)
    ensures var r := MaterializeAll(slots, ks, ctx);
      && (k in r <==> k in slots)
      && (k in slots ==> Truthy(r[k]) == Truthy(slots[k]))
      && (k in slots && Truthy(slots[k]) ==> Materialize(r[k], k, ctx) == Materialize(slots[k], k, ctx))
  {
    MaterializeAllPointwise(slots, ks, ctx);
  }

  /** Fetching `ks` and then `k` is fetching `ks + [k]`. */
  lemma {:induction false} MaterializeAllSnoc(slots: map<Key, Slot>, ks: seq<Key>, k: Key, ctx: Context)
    ensures MaterializeAll(slots, ks + [k], ctx) == MaterializeKey(MaterializeAll(slots, ks, ctx), k, ctx)
    decreases |ks|
  {
    if ks == [] {
      assert ks + [k] == [k];
    } else {
      assert (ks + [k])[0] == ks[0] && (ks + [k])[1..] == ks[1..] + [k];
      MaterializeAllSnoc(MaterializeKey(slots, ks[0], ctx), ks[1..], k, ctx);
    }
  }

  lemma AppendAssoc(a: seq<Event>, b: seq<Event>, c: seq<Event>)
    ensures a + b + c == a + (b + c)
  {
  }

  /** Fetching `k` and then `rest` is fetching `[k] + rest`. */
  lemma MaterializeAllCons(slots: map<Key, Slot>, k: Key, rest: seq<Key>, ctx: Context)
    ensures MaterializeAll(slots, [k] + rest, ctx) == MaterializeAll(MaterializeKey(slots, k, ctx), rest, ctx)
  {
    assert ([k] + rest)[0] == k && ([k] + rest)[1..] == rest;
  }
}
