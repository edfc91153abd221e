/**
 * The `Wizard` object of wizard/__init__.py:39-300: its fields, and methods
 * that update them in place, each proved against the specification
 * functions of the other modules.
 */
module WizardClass {
  import opened Wrappers
  import opened Steps
  import opened Registry
  import opened Prereq
  import opened Navigation
  import opened Urls
  import opened Display
  import opened Dispatch

  class Wizard {
    const baseUrlName: string
    const stepsSource: StepsSource
    var doRedirect: bool
    /** `steps`: the step dictionary, a lazily materialised cache. */
    var steps: map<Key, Slot>
    var stepsTuple: seq<StepDef>
    var urlArgs: seq<Value>
    var urlKwargs: map<string, Value>
    var args: seq<Value>
    var kwargs: map<string, Value>
    var request: Option<Request>
    /** `_current_step`: the step the current request asked for. */
    var currentStep: Option<Key>
    var templateArgs: map<string, Value>
    const navigationOpts: seq<(string, int)>
    /** Calls made on steps, signals and messages sent, in order. */
    ghost var trace: seq<Event>

    function Ctx(): Context
      reads this`args, this`kwargs, this`currentStep
    {
      Context(args, kwargs, currentStep, this)
    }

    function Cfg(): Config
      reads this`urlArgs, this`urlKwargs, this`templateArgs
    {
      Config(navigationOpts, urlArgs, urlKwargs, templateArgs)
    }

    /** `Wizard(base_url_name, steps, navigation_opts)`; empty options mean the default ones. */
    constructor (baseUrlName: string, steps: StepsSource, navigationOpts: seq<(string, int)>)
      ensures this.baseUrlName == baseUrlName && stepsSource == steps && !doRedirect
      ensures this.steps == map[] && stepsTuple == [] && request == None && currentStep == None
      ensures urlArgs == [] && urlKwargs == map[] && args == [] && kwargs == map[] && templateArgs == map[]
      ensures this.navigationOpts == if navigationOpts == [] then DefaultOptions else navigationOpts
      ensures trace == []
    {
      this.baseUrlName := baseUrlName;
      stepsSource := steps;
      doRedirect := false;
      this.steps := map[];
      stepsTuple := [];
      urlArgs, urlKwargs := [], map[];
      args, kwargs := [], map[];
      request, currentStep := None, None;
      templateArgs := map[];
      this.navigationOpts := if navigationOpts == [] then DefaultOptions else navigationOpts;
      trace := [];
    }

    method SetCommonTemplateArgs(targs: map<string, Value>)
      modifies this`templateArgs
      ensures templateArgs == targs
    {
      templateArgs := targs;
    }

    method SetStepInitArgs(a: seq<Value>, kw: map<string, Value>)
      modifies this`args, this`kwargs
      ensures args == a && kwargs == kw
    {
      args, kwargs := a, kw;
    }

    /** Stores the redirect arguments, or raises ValueError for a mix of positional and keyword ones. */
    method SetRedirectArgs(a: seq<Value>, kw: map<string, Value>) returns (r: Outcome<Error>)
      modifies this`urlArgs, this`urlKwargs
      ensures RedirectArgsAllowed(a, kw) ==> r == Pass && urlArgs == a && urlKwargs == kw
      ensures !RedirectArgsAllowed(a, kw) ==> r == Fail(ValueError) && urlArgs == old(urlArgs) && urlKwargs == old(urlKwargs)
    {
      if a != [] && kw != map[] {
        return Fail(ValueError);
      }
      urlArgs, urlKwargs := a, kw;
      r := Pass;
    }

    /** Rebuilds the tuple from its source and the step dictionary from the tuple, dropping every instance. */
    method InitializeSteps(req: Option<Request>)
      modifies this`stepsTuple, this`steps
      ensures stepsTuple == SourceTuple(stepsSource, req) && steps == DictOf(stepsTuple)
    {
      match stepsSource {
        case Dynamic(f) => stepsTuple := f(req);
        case Static(defs) => stepsTuple := defs;
      }
      steps := DictOf(stepsTuple);
    }

    /** Linear search for the first pair with key `step`. */
    method GetStepPosition(step: Key) returns (r: Result<nat, Error>)
      ensures r == Position(Keys(stepsTuple), step)
    {
      var i := 0;
      while i < |stepsTuple|
        invariant 0 <= i <= |stepsTuple|
        invariant forall j :: 0 <= j < i ==> stepsTuple[j].key != step
      {
        if stepsTuple[i].key == step {
          return Ok(i);
        }
        i := i + 1;
      }
      return Err(ValueError);
    }

    /** The 1-based step number. */
    method GetStepNumber(step: Key) returns (r: Result<nat, Error>)
      ensures r.Ok? <==> step in Keys(stepsTuple)
      ensures r.Ok? ==> 1 <= r.value <= |stepsTuple| && stepsTuple[r.value - 1].key == step
                        && forall j :: 0 <= j < r.value - 1 ==> stepsTuple[j].key != step
      ensures r.Err? ==> r.error == ValueError
    {
      var pos := GetStepPosition(step);
      if pos.Err? {
        return Err(pos.error);
      }
      r := Ok(pos.value + 1);
    }

    method TotalSteps() returns (n: nat)
      ensures n == |steps|
      ensures steps == DictOf(stepsTuple) ==> n == |KeySet(Keys(stepsTuple))|
    {
      TotalStepsIsDistinctKeys(stepsTuple);
      n := |steps|;
    }

    /** The key after `step`, without clamping: IndexError on the last step, ValueError for an unknown one. */
    method GetNextStepKey(step: Key) returns (r: Result<Key, Error>)
      ensures step !in Keys(stepsTuple) ==> r == Err(ValueError)
      ensures step in Keys(stepsTuple) ==>
        var p := Position(Keys(stepsTuple), step).value;
        (r.Ok? <==> p + 1 < |stepsTuple|) && (r.Ok? ==> r.value == stepsTuple[p + 1].key)
        && (r.Err? ==> r.error == IndexError)
    {
      var pos := GetStepPosition(step);
      if pos.Err? {
        return Err(pos.error);
      }
      if pos.value + 1 < |stepsTuple| {
        r := Ok(stepsTuple[pos.value + 1].key);
      } else {
        r := Err(IndexError);
      }
    }

    method GetStepKeyByPosition(p: int) returns (r: Result<Key, Error>)
      ensures r == KeyAt(Keys(stepsTuple), |steps|, p)
    {
      if p < 0 {
        r := if |stepsTuple| > 0 then Ok(stepsTuple[0].key) else Err(IndexError);
      } else if p < |steps| {
        r := if p < |stepsTuple| then Ok(stepsTuple[p].key) else Err(IndexError);
      } else {
        r := if |stepsTuple| > 0 then Ok(stepsTuple[|stepsTuple| - 1].key) else Err(IndexError);
      }
    }

    /** The key `dir` places from `k`: get_step_position, then get_step_key_by_position. */
    method GetNeighbour(k: Key, dir: int) returns (r: Result<Key, Error>)
      ensures r == Neighbour(Keys(stepsTuple), |steps|, k, dir)
    {
      var pos := GetStepPosition(k);
      if pos.Err? {
        return Err(pos.error);
      }
      r := GetStepKeyByPosition(pos.value + dir);
    }

    /** A fresh, unstamped instance of a step class, built with the step init args. */
    method InstantiateStep(cls: Behaviour) returns (inst: Instance)
      ensures inst.behaviour == cls && inst.ctor == Some(InstantiateCall(args, kwargs))
      ensures inst.key.None? && inst.owner.None? && inst.currentStep.None?
    {
      var call: CtorCall;
      if args != [] && kwargs != map[] {
        call := Both(args, kwargs);
      } else if args != [] {
        call := Positional(args);
      } else if kwargs != map[] {
        call := Keywords(kwargs);
      } else {
        call := NoArgs;
      }
      inst := Instance(cls, Some(call), None, None, None);
    }

    /**
     * The instance for `key`: Http404 for an absent key or a falsy slot; a
     * class is replaced by a stamped instance once, later calls return it.
     */
    method GetStepObjectByKey(key: Option<Key>) returns (r: Result<Instance, Error>)
      modifies this`steps
      ensures key.Some? ==> steps == MaterializeKey(old(steps), key.value, Ctx())
      ensures key.None? ==> steps == old(steps)
      ensures r.Ok? <==> key.Some? && key.value in old(steps) && Truthy(old(steps)[key.value])
      ensures r.Ok? ==> steps[key.value] == Ready(r.value)
      ensures r.Err? ==> r.error == NotFound
    {
      if key.None? || key.value !in steps || !Truthy(steps[key.value]) {
        return Err(NotFound);
      }
      var k := key.value;
      if steps[k].Factory? {
        var inst := InstantiateStep(steps[k].cls);
        steps := steps[k := Ready(inst.(key := Some(k), owner := Some(this), currentStep := currentStep))];
      }
      r := Ok(steps[k].instance);
    }

    /** The `current_step_object` property: the instance of the step the current request asked for. */
    method CurrentStepObject() returns (r: Result<Instance, Error>)
      modifies this`steps
      ensures r.Ok? <==> currentStep.Some? && currentStep.value in old(steps) && Truthy(old(steps)[currentStep.value])
      ensures r.Ok? ==> steps == MaterializeKey(old(steps), currentStep.value, Ctx()) && steps[currentStep.value] == Ready(r.value)
      ensures r.Err? ==> r.error == NotFound && steps == old(steps)
    {
      r := GetStepObjectByKey(currentStep);
    }

    /** Pair `i` is the first of `tuple` whose key is absent or falsy in `slots`: where get_steps stops. */
    ghost predicate StopsAt(slots: map<Key, Slot>, tuple: seq<StepDef>, i: int)
      requires 0 <= i < |tuple|
    {
      && !(tuple[i].key in slots && Truthy(slots[tuple[i].key]))
      && forall j :: 0 <= j < i ==> tuple[j].key in slots && Truthy(slots[tuple[j].key])
    }

    /** A POST of `step` reaches a save() that succeeds, so `post` goes on to navigate. */
    predicate SavesAt(slots: map<Key, Slot>, step: Key) {
      step in slots && Truthy(slots[step]) && BehaviourOf(slots[step]).save.Saved?
    }

    /** The dispatch re-initialises the steps: a GET with a step, or a POST with a step whose save succeeds. */
    predicate Rereads(slots: map<Key, Slot>, req: Request, step: Option<Key>) {
      step.Some? && step.value != "" && (req.verb.Get? || (req.verb.Post? && SavesAt(slots, step.value)))
    }

    /** Every (key, instance) pair in tuple order, materialising each step; Http404 at the first falsy or missing slot. */
    method GetSteps() returns (r: Result<seq<(Key, Instance)>, Error>)
      modifies this`steps
      ensures r.Ok? <==> forall j :: 0 <= j < |stepsTuple| ==> stepsTuple[j].key in old(steps) && Truthy(old(steps)[stepsTuple[j].key])
      ensures r.Ok? ==> |r.value| == |stepsTuple| && forall j :: 0 <= j < |stepsTuple| ==>
        r.value[j] == (stepsTuple[j].key, Materialize(old(steps)[stepsTuple[j].key], stepsTuple[j].key, Ctx()).instance)
      ensures r.Ok? ==> steps == MaterializeAll(old(steps), Keys(stepsTuple), Ctx())
      ensures r.Err? ==> r.error == NotFound
      ensures r.Err? ==> exists i :: (0 <= i < |stepsTuple| && StopsAt(old(steps), stepsTuple, i)
        && steps == MaterializeAll(old(steps), Keys(stepsTuple)[..i], Ctx()))
      ensures steps.Keys == old(steps).Keys
      ensures forall j :: j in old(steps) ==>
        steps[j] == old(steps)[j] || (Truthy(old(steps)[j]) && steps[j] == Materialize(old(steps)[j], j, Ctx()))
    {
      var out: seq<(Key, Instance)> := [];
      var i := 0;
      while i < |stepsTuple|
        invariant 0 <= i <= |stepsTuple|
        invariant forall j :: 0 <= j < i ==> stepsTuple[j].key in old(steps) && Truthy(old(steps)[stepsTuple[j].key])
        invariant steps == MaterializeAll(old(steps), Keys(stepsTuple)[..i], Ctx())
        invariant |out| == i && forall j :: 0 <= j < i ==>
          out[j] == (stepsTuple[j].key, Materialize(old(steps)[stepsTuple[j].key], stepsTuple[j].key, Ctx()).instance)
      {
        var k := stepsTuple[i].key;
        MaterializeAllSlot(old(steps), Keys(stepsTuple)[..i], k, Ctx());
        MaterializeAllSnoc(old(steps), Keys(stepsTuple)[..i], k, Ctx());
        var obj := GetStepObjectByKey(Some(k));
        if obj.Err? {
          MaterializeAllPointwise(old(steps), Keys(stepsTuple)[..i], Ctx());
          assert StopsAt(old(steps), stepsTuple, i);
          return Err(obj.error);
        }
        assert Keys(stepsTuple)[..i + 1] == Keys(stepsTuple)[..i] + [k];
        out := out + [(k, obj.value)];
        i := i + 1;
      }
      assert Keys(stepsTuple)[..i] == Keys(stepsTuple);
      MaterializeAllPointwise(old(steps), Keys(stepsTuple), Ctx());
      r := Ok(out);
    }

    /** The reversal arguments for `step`; the keyword branch writes `step` into the stored keyword arguments. */
    method GetUrl(step: Key) returns (t: UrlTarget)
      modifies this`urlKwargs
      ensures t == UrlFor(urlArgs, old(urlKwargs), step)
      ensures urlKwargs == KwargsAfter(old(urlKwargs), step)
    {
      if urlKwargs != map[] {
        urlKwargs := urlKwargs["step" := Str(step)];
        t := ReverseKwargs(urlKwargs);
      } else if urlArgs != [] {
        t := ReverseArgs(urlArgs + [Str(step)]);
      } else {
        t := ReverseKwargs(map["step" := Str(step)]);
      }
    }

    /** get_url as the source writes it: the positional branch also rebinds `url_args` to the grown tuple. */
    method GetUrlAsWritten(step: Key) returns (t: UrlTarget)
      modifies this`urlArgs, this`urlKwargs
      ensures t == UrlFor(old(urlArgs), old(urlKwargs), step)
      ensures urlArgs == ArgsAfterAsWritten(old(urlArgs), old(urlKwargs), step)
      ensures urlKwargs == KwargsAfter(old(urlKwargs), step)
    {
      if urlKwargs != map[] {
        urlKwargs := urlKwargs["step" := Str(step)];
        t := ReverseKwargs(urlKwargs);
      } else if urlArgs != [] {
        urlArgs := urlArgs + [Str(step)];
        t := ReverseArgs(urlArgs);
      } else {
        t := ReverseKwargs(map["step" := Str(step)]);
      }
    }

    method Redirect(step: Key) returns (r: Response)
      modifies this`urlKwargs
      ensures r == Redirected(step, UrlFor(urlArgs, old(urlKwargs), step))
      ensures urlKwargs == KwargsAfter(old(urlKwargs), step)
    {
      var url := GetUrl(step);
      r := Redirected(step, url);
    }

    /**
     * The except branch of handle_prereq after `k` raised PrereqMissing:
     * the exception's target with direction 0, else the key at the clamped
     * neighbouring position, with the direction reversed on a bounce.
     */
    method FindNextHop(k: Key, target: Option<Key>, direction: int) returns (r: Result<(Option<Key>, int), Error>)
      ensures r == NextHop(Keys(stepsTuple), |steps|, k, target, direction)
    {
      if direction == 0 {
        return Ok((target, 0));
      }
      var newKey := GetNeighbour(k, direction);
      if newKey.Err? {
        return Err(newKey.error);
      }
      r := Ok((Some(newKey.value), if newKey.value == k then direction * -1 else direction));
    }

    /**
     * handle_prereq(next, direction) with `depth` calls of stack left:
     * result, redirect flag, cache and events as Resolve describes.
     */
    method HandlePrereq(next: Option<Key>, direction: int, depth: nat) returns (r: Result<Key, Error>)
      modifies this`steps, this`doRedirect, this`trace
      ensures var res := Resolve(ViewOf(stepsTuple, old(steps)), next, direction, depth);
        && r == res.result
        && doRedirect == (old(doRedirect) || res.redirected)
        && steps == MaterializeAll(old(steps), res.visited, Ctx())
        && trace == old(trace) + res.events
      decreases depth, 1
    {
      if depth == 0 {
        return Err(RecursionLimit);
      }
      ghost var s0 := steps;
      var obj := GetStepObjectByKey(next);
      if obj.Err? {
        return Err(obj.error);
      }
      var k := next.value;
      match obj.value.behaviour.prereq {
        case Satisfied =>
          ResolveSettledOnSlots(stepsTuple, s0, k, direction, depth, Ctx());
          trace := trace + [PrereqCalled(k), PrereqSignal(k)];
          r := Ok(k);
        case Missing(target, flash) =>
          ResolveBlockedOnSlots(stepsTuple, s0, k, direction, depth, Ctx());
          r := HandleMissing(k, target, flash, direction, depth);
      }
    }

    /**
     * The except branch of handle_prereq once `k` raised PrereqMissing: the
     * message is sent, the redirect flag set, and the chase goes on from the
     * next hop, or stops with the error a lookup raised.
     */
    method HandleMissing(k: Key, target: Option<Key>, flash: Option<string>, direction: int, depth: nat)
      returns (r: Result<Key, Error>)
      requires depth > 0
      modifies this`steps, this`doRedirect, this`trace
      ensures var rest := Chase(ViewOf(stepsTuple, old(steps)), NextHop(Keys(stepsTuple), |old(steps)|, k, target, direction), depth - 1);
        && r == rest.result && doRedirect
        && steps == MaterializeAll(old(steps), rest.visited, Ctx())
        && trace == old(trace) + ([PrereqCalled(k)] + (FlashEvents(flash) + rest.events))
      decreases depth, 0
    {
      ghost var t0, evs := trace, [PrereqCalled(k)] + FlashEvents(flash);
      trace, doRedirect := trace + evs, true;
      var hop := FindNextHop(k, target, direction);
      ghost var rest, ctx := Chase(ViewOf(stepsTuple, steps), hop, depth - 1), Ctx();
      r := ChaseHop(hop, depth - 1);
      assert Ctx() == ctx;
      AppendAssoc(t0, evs, rest.events);
      AppendAssoc([PrereqCalled(k)], FlashEvents(flash), rest.events);
    }

    /** The recursive call of handle_prereq on the next hop, unless the lookup of that hop raised. */
    method ChaseHop(hop: Result<(Option<Key>, int), Error>, depth: nat) returns (r: Result<Key, Error>)
      modifies this`steps, this`doRedirect, this`trace
      ensures var rest := Chase(ViewOf(stepsTuple, old(steps)), hop, depth);
        && r == rest.result
        && doRedirect == (old(doRedirect) || rest.redirected)
        && steps == MaterializeAll(old(steps), rest.visited, Ctx())
        && trace == old(trace) + rest.events
      decreases depth, 2
    {
      if hop.Err? {
        return Err(hop.error);
      }
      r := HandlePrereq(hop.value.0, hop.value.1, depth);
    }

    /**
     * The scan of navigate(): the direction of the first configured action
     * the request carries and the key it leads to, or the step itself.
     */
    method FindStart(req: Request, step: Key) returns (r: Result<(Key, int), Error>)
      ensures r == NavStart(Keys(stepsTuple), |steps|, navigationOpts, req.params, step)
    {
      var i := 0;
      while i < |navigationOpts|
        invariant 0 <= i <= |navigationOpts|
        invariant forall j :: 0 <= j < i ==> navigationOpts[j].0 !in req.params
      {
        var (action, d) := navigationOpts[i];
        if action in req.params {
          FirstActionAt(navigationOpts, req.params, i);
          var candidate := GetNeighbour(step, d);
          if candidate.Err? {
            return Err(candidate.error);
          }
          return Ok((candidate.value, d));
        }
        i := i + 1;
      }
      r := Ok((step, 0));
    }

    /** navigate(request, step): re-initialise, scan the actions, chase prerequisites. */
    method Navigate(req: Request, step: Key) returns (r: Result<Key, Error>)
      modifies this`stepsTuple, this`steps, this`doRedirect, this`trace
      ensures stepsTuple == SourceTuple(stepsSource, Some(req))
      ensures var res := NavigateSpec(ViewOf(stepsTuple, DictOf(stepsTuple)), navigationOpts, req.params, step, MaxDepth);
        && r == res.result
        && doRedirect == (old(doRedirect) || res.redirected)
        && steps == MaterializeAll(DictOf(stepsTuple), res.visited, Ctx())
        && trace == old(trace) + res.events
    {
      InitializeSteps(Some(req));
      var start := FindStart(req, step);
      if start.Err? {
        return Err(start.error);
      }
      r := HandlePrereq(Some(start.value.0), start.value.1, MaxDepth);
    }

    method Render(req: Request, data: Data, step: Key) returns (r: Result<Response, Error>)
      modifies this`steps, this`trace
      ensures step in old(steps) && Truthy(old(steps)[step]) ==>
        r == Ok(Rendered(step, data)) && trace == old(trace) + [TemplateCalled(step)]
      ensures !(step in old(steps) && Truthy(old(steps)[step])) ==> r == Err(NotFound) && trace == old(trace)
      ensures steps == MaterializeKey(old(steps), step, Ctx())
    {
      var obj := GetStepObjectByKey(Some(step));
      if obj.Err? {
        return Err(obj.error);
      }
      trace := trace + [TemplateCalled(step)];
      r := Ok(Rendered(step, data));
    }

    /** The step's own data (display() or {}), then the common template args, then the wizard's entries. */
    method AddWizardDataToTemplate(data: Data, step: Key) returns (r: Result<Data, Error>)
      modifies this`steps
      ensures steps == MaterializeKey(old(steps), step, Ctx())
      ensures step in old(steps) && Truthy(old(steps)[step]) ==>
        r == Ok(WizardData(data, templateArgs, step, steps[step].instance, this))
      ensures !(step in old(steps) && Truthy(old(steps)[step])) ==> r == Err(NotFound)
    {
      var merged := data;
      if templateArgs != map[] {
        merged := MergeTemplateArgs(data, templateArgs);
        MergeIsUnion(data, templateArgs, merged);
      } else {
        assert data + PlainData(templateArgs) == data;
      }
      merged := merged["step_key" := Plain(Str(step))];
      var obj := GetStepObjectByKey(Some(step));
      if obj.Err? {
        return Err(obj.error);
      }
      merged := merged["step" := StepObject(obj.value)];
      merged := merged["wizard" := WizardObject(this)];
      r := Ok(merged);
    }

    method DoDisplay(step: Key) returns (r: Result<Data, Error>)
      modifies this`steps, this`trace
      ensures steps == MaterializeKey(old(steps), step, Ctx())
      ensures step in old(steps) && Truthy(old(steps)[step]) ==>
        var inst := steps[step].instance;
        r == Ok(WizardData(PlainData(inst.behaviour.display), templateArgs, step, inst, this))
        && trace == old(trace) + DisplayEvents(step)
      ensures !(step in old(steps) && Truthy(old(steps)[step])) ==> r == Err(NotFound) && trace == old(trace)
    {
      var obj := GetStepObjectByKey(Some(step));
      if obj.Err? {
        return Err(obj.error);
      }
      trace := trace + [PreDisplay(step), DisplayCalled(step)];
      var data := PlainData(obj.value.behaviour.display);
      trace := trace + [PostDisplay(step)];
      r := AddWizardDataToTemplate(data, step);
    }

    /** `render(request, do_display(step), step)`: display the step, then render it with its template. */
    method ShowStep(req: Request, step: Key) returns (r: Result<Response, Error>)
      modifies this`steps, this`trace
      ensures var c := ShowCycle(old(steps), step, doRedirect, Cfg(), Ctx());
        r == c.response && trace == old(trace) + c.events && steps == c.slots
    {
      var data := DoDisplay(step);
      if data.Err? {
        return Err(data.error);
      }
      r := Render(req, data.value, step);
      AppendAssoc(old(trace), DisplayEvents(step), [TemplateCalled(step)]);
    }

    /** The end of `get` once navigation answered `next`: redirect when the flag is set, else show the step. */
    method AnswerGet(req: Request, next: Result<Key, Error>) returns (r: Result<Response, Error>)
      modifies this`steps, this`trace, this`urlKwargs
      ensures var c := AnswerCycle(old(steps), next, doRedirect, old(Cfg()), Ctx());
        r == c.response && trace == old(trace) + c.events && steps == c.slots && urlKwargs == c.urlKwargs
    {
      if next.Err? {
        return Err(next.error);
      }
      if doRedirect {
        var response := Redirect(next.value);
        return Ok(response);
      }
      r := ShowStep(req, next.value);
    }

    /** `redirect(next)` where `next` is a key lookup that may have raised: the error propagates. */
    method RedirectTo(next: Result<Key, Error>) returns (r: Result<Response, Error>)
      modifies this`urlKwargs
      ensures var c := RedirectCycle(steps, next, doRedirect, old(Cfg()));
        r == c.response && urlKwargs == c.urlKwargs
    {
      if next.Err? {
        return Err(next.error);
      }
      var response := Redirect(next.value);
      r := Ok(response);
    }

    /** `redirect(navigate(request, step))`. */
    method NavigateAndRedirect(req: Request, step: Key) returns (r: Result<Response, Error>)
      modifies this`stepsTuple, this`steps, this`doRedirect, this`trace, this`urlKwargs
      ensures var c := NavigateRedirectCycle(SourceTuple(stepsSource, Some(req)), old(Cfg()), old(Ctx()), req, step, old(doRedirect));
        && r == c.response && trace == old(trace) + c.events && doRedirect == c.redirect
        && steps == c.slots && urlKwargs == c.urlKwargs
      ensures stepsTuple == SourceTuple(stepsSource, Some(req))
    {
      ghost var cfg, ctx := Cfg(), Ctx();
      var k := Navigate(req, step);
      assert Cfg() == cfg && Ctx() == ctx;
      r := RedirectTo(k);
    }

    /** The try block of `post` from the call to save() on, for a step whose save() has outcome `outcome`. */
    method SaveStep(req: Request, step: Key, outcome: SaveOutcome) returns (r: Result<Response, Error>)
      modifies this`stepsTuple, this`steps, this`doRedirect, this`trace, this`urlKwargs
      ensures var c := SaveCycle(old(steps), outcome, SourceTuple(stepsSource, Some(req)), old(Cfg()), old(Ctx()), req, step, old(doRedirect));
        && r == c.response && trace == old(trace) + c.events && doRedirect == c.redirect
        && steps == c.slots && urlKwargs == c.urlKwargs
      ensures stepsTuple == if outcome.Saved? then SourceTuple(stepsSource, Some(req)) else old(stepsTuple)
    {
      ghost var t0 := trace;
      if outcome.SaveFailed? {
        trace := trace + [SaveCalled(step)];
        r := ShowStep(req, step);
        AppendAssoc(t0, [SaveCalled(step)], trace[|t0| + 1..]);
      } else {
        trace := trace + [SaveCalled(step), PostSave(step)];
        r := NavigateAndRedirect(req, step);
        AppendAssoc(t0, [SaveCalled(step), PostSave(step)], trace[|t0| + 2..]);
      }
    }

    method Post(req: Request, step: Key) returns (r: Result<Response, Error>)
      modifies this`stepsTuple, this`steps, this`doRedirect, this`trace, this`urlKwargs
      ensures var c := PostCycle(old(steps), SourceTuple(stepsSource, Some(req)), old(Cfg()), old(Ctx()), req, step, old(doRedirect));
        && r == c.response && trace == old(trace) + c.events && doRedirect == c.redirect
        && steps == c.slots && urlKwargs == c.urlKwargs
      ensures stepsTuple == if SavesAt(old(steps), step) then SourceTuple(stepsSource, Some(req)) else old(stepsTuple)
    {
      ghost var t0, cfg, ctx, r0, s0 := trace, Cfg(), Ctx(), doRedirect, steps;
      trace := trace + [PreSave(step)];
      var obj := GetStepObjectByKey(Some(step));
      if obj.Err? {
        return Err(obj.error);
      }
      assert Cfg() == cfg && Ctx() == ctx;
      assert steps == MaterializeKey(s0, step, ctx) && obj.value.behaviour.save == BehaviourOf(s0[step]).save;
      ghost var c := SaveCycle(MaterializeKey(s0, step, ctx), BehaviourOf(s0[step]).save, SourceTuple(stepsSource, Some(req)), cfg, ctx, req, step, r0);
      r := SaveStep(req, step, obj.value.behaviour.save);
      AppendAssoc(t0, [PreSave(step)], c.events);
    }

    method Get(req: Request, step: Key) returns (r: Result<Response, Error>)
      modifies this`stepsTuple, this`steps, this`doRedirect, this`trace, this`urlKwargs
      ensures var c := GetCycle(SourceTuple(stepsSource, Some(req)), old(Cfg()), old(Ctx()), req, step, old(doRedirect));
        && r == c.response && trace == old(trace) + c.events && doRedirect == c.redirect
        && steps == c.slots && urlKwargs == c.urlKwargs
      ensures stepsTuple == SourceTuple(stepsSource, Some(req))
    {
      ghost var t0, cfg, ctx, r0 := trace, Cfg(), Ctx(), doRedirect;
      ghost var tuple := SourceTuple(stepsSource, Some(req));
      ghost var res := NavigateSpec(ViewOf(tuple, DictOf(tuple)), cfg.opts, req.params, step, MaxDepth);
      ghost var slots1 := MaterializeAll(DictOf(tuple), res.visited, ctx);
      var k := Navigate(req, step);
      assert k == res.result && steps == slots1 && doRedirect == (r0 || res.redirected) && trace == t0 + res.events;
      assert Cfg() == cfg && Ctx() == ctx;
      ghost var c := AnswerCycle(slots1, res.result, r0 || res.redirected, cfg, ctx);
      r := AnswerGet(req, k);
      AnswerKeepsFlag(slots1, res.result, r0 || res.redirected, cfg, ctx);
      AppendAssoc(t0, res.events, c.events);
    }

    /** The main dispatch of one request. */
    method HandleRequest(req: Request, step: Option<Key>) returns (r: Result<Response, Error>)
      modifies this`request, this`currentStep, this`stepsTuple, this`steps, this`doRedirect, this`trace, this`urlKwargs
      ensures var c := RequestCycle(stepsSource, old(Cfg()), args, kwargs, this, req, step, old(doRedirect));
        && r == c.response && trace == old(trace) + c.events && doRedirect == c.redirect
        && steps == c.slots && urlKwargs == c.urlKwargs
      ensures request == Some(req) && currentStep == step && stepsTuple == SourceTuple(stepsSource, Some(req))
    {
      ghost var cfg := Cfg();
      request, currentStep := Some(req), step;
      InitializeSteps(Some(req));
      ghost var tuple := SourceTuple(stepsSource, Some(req));
      assert stepsTuple == tuple && steps == DictOf(tuple);
      assert Cfg() == cfg && Ctx() == Context(args, kwargs, step, this);
      r := DispatchStep(req, step);
    }

    /** The body of `handle_request` after the steps were initialised. */
    method DispatchStep(req: Request, step: Option<Key>) returns (r: Result<Response, Error>)
      modifies this`stepsTuple, this`steps, this`doRedirect, this`trace, this`urlKwargs
      ensures var c := DispatchCycle(old(steps), old(stepsTuple), SourceTuple(stepsSource, Some(req)), old(Cfg()), Ctx(), req, step, old(doRedirect));
        && r == c.response && trace == old(trace) + c.events && doRedirect == c.redirect
        && steps == c.slots && urlKwargs == c.urlKwargs
      ensures stepsTuple == if Rereads(old(steps), req, step) then SourceTuple(stepsSource, Some(req)) else old(stepsTuple)
    {
      if step.None? || step.value == "" {
        var k := GetStepKeyByPosition(0);
        r := RedirectTo(k);
        return;
      }
      match req.verb {
        case Post => r := Post(req, step.value);
        case Get => r := Get(req, step.value);
        case OtherVerb => r := Ok(NoResponse);
      }
    }

    /**
     * The link in direction `dir` from the current step: the chased key,
     * or nothing when the chase ends on the current step.
     */
    method MoveStepDirection(dir: int) returns (r: Result<Option<UrlTarget>, Error>)
      modifies this`steps, this`doRedirect, this`trace, this`urlKwargs
      ensures var m := MoveSpec(ViewOf(stepsTuple, old(steps)), currentStep, dir, MaxDepth);
        && (r.Err? <==> m.link.Err?) && (r.Err? ==> r.error == m.link.error)
        && (r.Ok? ==> (r.value.None? <==> m.link.value.None?))
        && (r.Ok? && r.value.Some? ==> r.value.value == UrlFor(urlArgs, old(urlKwargs), m.link.value.value)
                                       && urlKwargs == KwargsAfter(old(urlKwargs), m.link.value.value))
        && (r.Ok? && r.value.None? ==> urlKwargs == old(urlKwargs))
        && doRedirect == (old(doRedirect) || m.res.redirected)
        && steps == MaterializeAll(old(steps), m.res.visited, Ctx())
        && trace == old(trace) + m.res.events
    {
      if currentStep.None? {
        return Err(ValueError);
      }
      var next := GetNeighbour(currentStep.value, dir);
      if next.Err? {
        return Err(next.error);
      }
      var k := HandlePrereq(Some(next.value), dir, MaxDepth);
      if k.Err? {
        return Err(k.error);
      }
      if Some(k.value) != currentStep {
        var url := GetUrl(k.value);
        return Ok(Some(url));
      }
      r := Ok(None);
    }

    method NextStepUrl() returns (r: Result<Option<UrlTarget>, Error>)
      modifies this`steps, this`doRedirect, this`trace, this`urlKwargs
      ensures var m := MoveSpec(ViewOf(stepsTuple, old(steps)), currentStep, 1, MaxDepth);
        && (r.Err? <==> m.link.Err?) && (r.Err? ==> r.error == m.link.error)
        && (r.Ok? ==> (r.value.None? <==> m.link.value.None?))
        && (r.Ok? && r.value.Some? ==> r.value.value == UrlFor(urlArgs, old(urlKwargs), m.link.value.value)
                                       && urlKwargs == KwargsAfter(old(urlKwargs), m.link.value.value))
        && (r.Ok? && r.value.None? ==> urlKwargs == old(urlKwargs))
        && doRedirect == (old(doRedirect) || m.res.redirected)
        && steps == MaterializeAll(old(steps), m.res.visited, Ctx())
        && trace == old(trace) + m.res.events
    {
      r := MoveStepDirection(1);
    }

    method PrevStepUrl() returns (r: Result<Option<UrlTarget>, Error>)
      modifies this`steps, this`doRedirect, this`trace, this`urlKwargs
      ensures var m := MoveSpec(ViewOf(stepsTuple, old(steps)), currentStep, -1, MaxDepth);
        && (r.Err? <==> m.link.Err?) && (r.Err? ==> r.error == m.link.error)
        && (r.Ok? ==> (r.value.None? <==> m.link.value.None?))
        && (r.Ok? && r.value.Some? ==> r.value.value == UrlFor(urlArgs, old(urlKwargs), m.link.value.value)
                                       && urlKwargs == KwargsAfter(old(urlKwargs), m.link.value.value))
        && (r.Ok? && r.value.None? ==> urlKwargs == old(urlKwargs))
        && doRedirect == (old(doRedirect) || m.res.redirected)
        && steps == MaterializeAll(old(steps), m.res.visited, Ctx())
        && trace == old(trace) + m.res.events
    {
      r := MoveStepDirection(-1);
    }
  }
}
