/**
 * One request-handling cycle of the dispatcher (`handle_request`, `post`,
 * `get`, wizard/__init__.py:109-125, 207-215, 256-261) as a function of the
 * wizard's state: the response, the events, the redirect flag, the step
 * dictionary and the stored url keyword arguments it leaves behind.
 */
module Dispatch {
  import opened Wrappers
  import opened Steps
  import opened Registry
  import opened Prereq
  import opened Navigation
  import opened Urls
  import opened Display

  datatype Verb = Get | Post | OtherVerb

  /** The request as the core reads it: its method and the keys of `request.REQUEST`. */
  datatype Request = Request(verb: Verb, params: set<string>)

  /** Where the steps come from: a tuple, or a callable evaluated with the request. */
  datatype StepsSource = Static(defs: seq<StepDef>) | Dynamic(callback: Option<Request> -> seq<StepDef>)

  function SourceTuple(src: StepsSource, req: Option<Request>): seq<StepDef> {
    match src
    case Static(defs) => defs
    case Dynamic(f) => f(req)
  }

  /** What a cycle answers: a redirect, a rendered step, or nothing for a method other than GET and POST. */
  datatype Response = Redirected(step: Key, url: UrlTarget) | Rendered(step: Key, data: Data) | NoResponse

  /** The wizard settings a cycle reads: navigation options, redirect args, common template args. */
  datatype Config = Config(opts: seq<(string, int)>, urlArgs: seq<Value>, urlKwargs: map<string, Value>, templateArgs: map<string, Value>)

  datatype Cycle = Cycle(
    response: Result<Response, Error>,
    events: seq<Event>,
    redirect: bool,
    slots: map<Key, Slot>,
    urlKwargs: map<string, Value>)

  function DisplayEvents(k: Key): seq<Event> {
    [PreDisplay(k), DisplayCalled(k), PostDisplay(k)]
  }

  /** display() with its signals, then template(). */
  function RenderEvents(k: Key): seq<Event> {
    DisplayEvents(k) + [TemplateCalled(k)]
  }

  /** The rendered page of an open step: its display data with the wizard's entries. */
  function RenderedStep(k: Key, inst: Instance, cfg: Config, owner: object): Response {
    Rendered(k, WizardData(PlainData(inst.behaviour.display), cfg.templateArgs, k, inst, owner))
  }

  /**
   * `render(request, do_display(k), k)` on the dictionary `slots`: display
   * and render step `k`, materialising it; Http404 when it is missing or falsy.
   */
  function ShowCycle(slots: map<Key, Slot>, k: Key, flag: bool, cfg: Config, ctx: Context): Cycle {
    if k in slots && Truthy(slots[k]) then
      var shown := Materialize(slots[k], k, ctx);
      Cycle(Ok(RenderedStep(k, shown.instance, cfg, ctx.owner)), RenderEvents(k), flag, slots[k := shown], cfg.urlKwargs)
    else
      Cycle(Err(NotFound), [], flag, slots, cfg.urlKwargs)
  }

  /** `redirect(next)`, where `next` is what navigation answered: its error propagates. */
  function RedirectCycle(slots: map<Key, Slot>, next: Result<Key, Error>, flag: bool, cfg: Config): Cycle {
    match next
    case Err(e) => Cycle(Err(e), [], flag, slots, cfg.urlKwargs)
    case Ok(k) => Cycle(Ok(Redirected(k, UrlFor(cfg.urlArgs, cfg.urlKwargs, k))), [], flag, slots, KwargsAfter(cfg.urlKwargs, k))
  }

  /** The end of `get` once navigation answered `next`: redirect when the flag is set, else show the step. */
  function AnswerCycle(slots: map<Key, Slot>, next: Result<Key, Error>, flag: bool, cfg: Config, ctx: Context): Cycle {
    if next.Ok? && !flag then ShowCycle(slots, next.value, flag, cfg, ctx) else RedirectCycle(slots, next, flag, cfg)
  }

  /** Answering a GET never changes the sticky redirect flag. */
  lemma AnswerKeepsFlag(slots: map<Key, Slot>, next: Result<Key, Error>, flag: bool, cfg: Config, ctx: Context)
    ensures AnswerCycle(slots, next, flag, cfg, ctx).redirect == flag
  {
  }

  /**
   * `get(request, step)`: navigate (which re-initialises the steps from
   * `tuple`), then redirect when the sticky flag is set, else display and
   * render the resolved step.
   */
  function GetCycle(tuple: seq<StepDef>, cfg: Config, ctx: Context, req: Request, step: Key, redirect0: bool): Cycle {
    var res := NavigateSpec(ViewOf(tuple, DictOf(tuple)), cfg.opts, req.params, step, MaxDepth);
    var c := AnswerCycle(MaterializeAll(DictOf(tuple), res.visited, ctx), res.result, redirect0 || res.redirected, cfg, ctx);
    c.(events := res.events + c.events)
  }

  /**
   * The step navigation resolves holds a ready instance once navigation is
   * over, so that displaying and rendering it neither raises Http404 nor
   * changes the dictionary.
   */
  lemma NavigatedStepReady(tuple: seq<StepDef>, opts: seq<(string, int)>, params: set<string>, step: Key, ctx: Context)
    ensures var slots0 := DictOf(tuple);
      var res := NavigateSpec(ViewOf(tuple, slots0), opts, params, step, MaxDepth);
      var slots := MaterializeAll(slots0, res.visited, ctx);
      res.result.Ok? ==>
        var k := res.result.value;
        k in slots && slots[k].Ready? && MaterializeKey(slots, k, ctx) == slots
  {
    var slots0 := DictOf(tuple);
    var res := NavigateSpec(ViewOf(tuple, slots0), opts, params, step, MaxDepth);
    if res.result.Ok? {
      var k := res.result.value;
      var slots := MaterializeAll(slots0, res.visited, ctx);
      NavigateSound(ViewOf(tuple, slots0), opts, params, step, MaxDepth);
      MaterializeAllSlot(slots0, res.visited, k, ctx);
      MaterializeAllPointwise(slots0, res.visited, ctx);
      assert slots[k] == Materialize(slots0[k], k, ctx);
    }
  }

  /**
   * `redirect(navigate(request, step))`: navigate (re-initialising from
   * `tuple`), then redirect to the resolved step; redirecting calls no step,
   * so the events are navigation's.
   */
  function NavigateRedirectCycle(tuple: seq<StepDef>, cfg: Config, ctx: Context, req: Request, step: Key, redirect0: bool): Cycle {
    var res := NavigateSpec(ViewOf(tuple, DictOf(tuple)), cfg.opts, req.params, step, MaxDepth);
    var c := RedirectCycle(MaterializeAll(DictOf(tuple), res.visited, ctx), res.result, redirect0 || res.redirected, cfg);
    c.(events := res.events)
  }

  /**
   * The try block of `post` from the call to save() on: a SaveStepException
   * re-renders the same step, otherwise the post-save signal is sent and the
   * wizard redirects to where navigation leads.
   */
  function SaveCycle(slots: map<Key, Slot>, outcome: SaveOutcome, tuple: seq<StepDef>, cfg: Config, ctx: Context,
                     req: Request, step: Key, redirect0: bool): Cycle
  {
    match outcome
    case SaveFailed =>
      var c := ShowCycle(slots, step, redirect0, cfg, ctx);
      c.(events := [SaveCalled(step)] + c.events)
    case Saved =>
      var c := NavigateRedirectCycle(tuple, cfg, ctx, req, step, redirect0);
      c.(events := [SaveCalled(step), PostSave(step)] + c.events)
  }

  /**
   * `post(request, step)` on the dictionary `slots`: send the pre-save
   * signal, fetch the step (Http404 when it is missing or falsy) and save it.
   */
  function PostCycle(slots: map<Key, Slot>, tuple: seq<StepDef>, cfg: Config, ctx: Context, req: Request, step: Key, redirect0: bool): Cycle {
    if step !in slots || !Truthy(slots[step]) then Cycle(Err(NotFound), [PreSave(step)], redirect0, slots, cfg.urlKwargs)
    else
      var c := SaveCycle(MaterializeKey(slots, step, ctx), BehaviourOf(slots[step]).save, tuple, cfg, ctx, req, step, redirect0);
      c.(events := [PreSave(step)] + c.events)
  }

  /**
   * `handle_request(request, step)` after the steps were initialised into
   * `current` and `slots`: without a step redirect to the key at position 0;
   * dispatch POST and GET, which re-read `reread`; any other method answers
   * nothing.
   */
  function DispatchCycle(slots: map<Key, Slot>, current: seq<StepDef>, reread: seq<StepDef>, cfg: Config, ctx: Context,
                         req: Request, step: Option<Key>, redirect0: bool): Cycle
  {
    if step.None? || step.value == "" then
      RedirectCycle(slots, KeyAt(Keys(current), |slots|, 0), redirect0, cfg)
    else
      match req.verb
      case Post => PostCycle(slots, reread, cfg, ctx, req, step.value, redirect0)
      case Get => GetCycle(reread, cfg, ctx, req, step.value, redirect0)
      case OtherVerb => Cycle(Ok(NoResponse), [], redirect0, slots, cfg.urlKwargs)
  }

  /**
   * `handle_request(request, step)`: record the request and the step,
   * initialise the steps from `src`, then dispatch.
   */
  function RequestCycle(src: StepsSource, cfg: Config, args: seq<Value>, kwargs: map<string, Value>, owner: object,
                        req: Request, step: Option<Key>, redirect0: bool): Cycle
  {
    var tuple := SourceTuple(src, Some(req));
    DispatchCycle(DictOf(tuple), tuple, tuple, cfg, Context(args, kwargs, step, owner), req, step, redirect0)
  }

  /** Without a step the wizard redirects to the first key; on an empty registry it raises IndexError. */
  lemma NoStepRedirectsToFirst(src: StepsSource, cfg: Config, args: seq<Value>, kwargs: map<string, Value>, owner: object,
                               req: Request, redirect0: bool)
    ensures var tuple := SourceTuple(src, Some(req));
      RequestCycle(src, cfg, args, kwargs, owner, req, None, redirect0).response ==
        if tuple == [] then Err(IndexError)
        else Ok(Redirected(tuple[0].key, UrlFor(cfg.urlArgs, cfg.urlKwargs, tuple[0].key)))
  {
    var tuple := SourceTuple(src, Some(req));
    if tuple != [] {
      TotalStepsIsDistinctKeys(tuple);
      assert tuple[0].key in KeySet(Keys(tuple));
    }
  }

  /** A GET for an unknown step raises Http404 (ValueError when an action is present). */
  lemma UnknownStepIsNotFound(src: StepsSource, cfg: Config, args: seq<Value>, kwargs: map<string, Value>, owner: object,
                              req: Request, step: Key, redirect0: bool)
    requires step != "" && step !in Keys(SourceTuple(src, Some(req)))
    requires req.verb.Get? || req.verb.Post?
    ensures req.verb.Post? || FirstAction(cfg.opts, req.params).None? ==>
      RequestCycle(src, cfg, args, kwargs, owner, req, Some(step), redirect0).response == Err(NotFound)
    ensures req.verb.Get? && FirstAction(cfg.opts, req.params).Some? ==>
      RequestCycle(src, cfg, args, kwargs, owner, req, Some(step), redirect0).response == Err(ValueError)
  {
    var tuple := SourceTuple(src, Some(req));
    assert step !in DictOf(tuple);
    assert step !in ViewOf(tuple, DictOf(tuple)).prereqs;
  }

  /**
   * A GET with no action for an open step, on a fresh wizard, renders that
   * step: prereq(), display() and template() are each called once on it,
   * and no other step is instantiated.
   */
  lemma GetRendersOpenStep(src: StepsSource, cfg: Config, args: seq<Value>, kwargs: map<string, Value>, owner: object,
                           req: Request, step: Key)
    requires req.verb.Get? && step != ""
    requires forall i :: 0 <= i < |cfg.opts| ==> cfg.opts[i].0 !in req.params
    requires var slots := DictOf(SourceTuple(src, Some(req)));
      step in slots && Truthy(slots[step]) && BehaviourOf(slots[step]).prereq.Satisfied?
    ensures var c := RequestCycle(src, cfg, args, kwargs, owner, req, Some(step), false);
      var slots := DictOf(SourceTuple(src, Some(req)));
      && c.response.Ok? && c.response.value.Rendered? && c.response.value.step == step
      && c.events == [PrereqCalled(step), PrereqSignal(step)] + DisplayEvents(step) + [TemplateCalled(step)]
      && !c.redirect
      && c.slots.Keys == slots.Keys
      && forall j :: j in slots && j != step ==> c.slots[j] == slots[j]
  {
    var tuple := SourceTuple(src, Some(req));
    var v := ViewOf(tuple, DictOf(tuple));
    NoActionStays(v, cfg.opts, req.params, step, MaxDepth);
    MaterializeAllPointwise(DictOf(tuple), [step], Context(args, kwargs, Some(step), owner));
  }

  /**
   * A POST whose save() raises SaveStepException re-renders the same step:
   * save() and display() are called once each, and the post-save signal is not sent.
   */
  lemma FailedSaveRendersSameStep(slots: map<Key, Slot>, tuple: seq<StepDef>, cfg: Config, ctx: Context,
                                  req: Request, step: Key, redirect0: bool)
    requires step in slots && Truthy(slots[step]) && BehaviourOf(slots[step]).save.SaveFailed?
    ensures var c := PostCycle(slots, tuple, cfg, ctx, req, step, redirect0);
      && c.response.Ok? && c.response.value.Rendered? && c.response.value.step == step
      && c.events == [PreSave(step), SaveCalled(step)] + DisplayEvents(step) + [TemplateCalled(step)]
      && PostSave(step) !in c.events
      && c.redirect == redirect0
  {
  }

  /** A POST whose save() succeeds always redirects, to the step navigation resolves, whatever the flag. */
  lemma SavedPostRedirects(slots: map<Key, Slot>, tuple: seq<StepDef>, cfg: Config, ctx: Context,
                           req: Request, step: Key, redirect0: bool)
    requires step in slots && Truthy(slots[step]) && BehaviourOf(slots[step]).save.Saved?
    ensures var res := NavigateSpec(ViewOf(tuple, DictOf(tuple)), cfg.opts, req.params, step, MaxDepth);
      var c := PostCycle(slots, tuple, cfg, ctx, req, step, redirect0);
      && (res.result.Ok? ==> c.response == Ok(Redirected(res.result.value, UrlFor(cfg.urlArgs, cfg.urlKwargs, res.result.value))))
      && (res.result.Err? ==> c.response == Err(res.result.error))
      && c.events[..3] == [PreSave(step), SaveCalled(step), PostSave(step)]
  {
  }

  /**
   * A GET answers with a redirect exactly when the flag was already set or a
   * prerequisite failed on the way, and otherwise renders the resolved step.
   */
  lemma GetRedirectsIffFlagged(tuple: seq<StepDef>, cfg: Config, ctx: Context, req: Request, step: Key, redirect0: bool)
    requires NavigateSpec(ViewOf(tuple, DictOf(tuple)), cfg.opts, req.params, step, MaxDepth).result.Ok?
    ensures var res := NavigateSpec(ViewOf(tuple, DictOf(tuple)), cfg.opts, req.params, step, MaxDepth);
      var c := GetCycle(tuple, cfg, ctx, req, step, redirect0);
      && c.response.Ok? && c.response.value.step == res.result.value
      && (c.response.value.Redirected? <==> redirect0 || res.redirected)
      && (c.response.value.Rendered? <==> !(redirect0 || res.redirected))
  {
    NavigatedStepReady(tuple, cfg.opts, req.params, step, ctx);
  }
}
