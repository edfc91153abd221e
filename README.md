# django-wizard navigation core in Dafny

This project models the `Wizard` class of `wizard/__init__.py`. A Django
view hands each request to a wizard. The wizard holds an ordered tuple of
`(key, step)` pairs. It decides whether to render the requested step or to
redirect to another step, depending on the action the request carries
(`wizard_next`, `wizard_previous`, ...) and on each step's `prereq()`,
`save()` and `display()`.

The model has one module per concern:

| module | file | what it covers |
|---|---|---|
| `Wrappers` | wrappers.dfy | `Option`, `Result` and `Outcome` |
| `Steps` | steps.dfy | step behaviour (prereq/save/display outcomes), the slots of the step dictionary (`Factory`, `Ready` instance, `Falsy`), the constructor call of `instantiate_step`, lazy materialisation, the event trace |
| `Registry` | registry.dfy | `steps_tuple`, `dict(steps_tuple)`, `get_step_position`, and the clamped `get_step_key_by_position` |
| `Prereq` | prereq.dfy | the recursive `handle_prereq` as the function `Resolve`, with its walk, bounce and jump rules, and its termination behaviour |
| `Navigation` | navigation.dfy | the action scan of `navigate` and the link of `move_step_direction` |
| `Urls` | urls.dfy | the argument assembly of `get_url` and the rule of `set_redirect_args` |
| `Display` | display.dfy | the template data built by `do_display` and `add_wizard_data_to_template` |
| `Dispatch` | dispatch.dfy | one request cycle (`handle_request`, `post`, `get`) as functions, and its scenarios |
| `WizardClass` | wizard.dfy | the `Wizard` class, whose fields are updated in place by methods proved against the functions above |

Every method of `WizardClass.Wizard` is proved against a specification
function of the other modules. Its `ensures` gives the result and the new
value of every field it changes: the step dictionary `steps`, the sticky
`doRedirect` flag, `urlKwargs`, and a ghost `trace`. Redirects and links are
built with the corrected `get_url` of "## Findings", which leaves `url_args`
as configured; the source's version also grows `url_args`, and the members
that inherit the difference are listed under "## Left out". The trace records, in
order, the calls made on steps (`prereq()`, `save()`, `display()`,
`template()`), the signals sent and the messages flashed. The lemmas then
state what the source promises about those functions.

## Model

Several functions are the definitions that other members are proved
against, and have no row of their own. Each is described by the rows of the
class method proved equal to it and of the lemmas about it:

- `Prereq.Resolve` is `handle_prereq` (wizard/__init__.py:217-238). See `WizardClass.Wizard.HandlePrereq`, `Prereq.ResolveSound`, `Prereq.RedirectIffMoved` and `Prereq.WalkSettlesIff`.
- `Registry.KeyAt` is `get_step_key_by_position` (wizard/__init__.py:147-153). See `WizardClass.Wizard.GetStepKeyByPosition`, `Registry.KeyAtClamps` and `Registry.KeyAtNeverRaises`.
- `Registry.DictOf` is `dict(self.steps_tuple)` (wizard/__init__.py:102-107). See `WizardClass.Wizard.InitializeSteps`, `Registry.DictOfLastWins` and `Registry.TotalStepsIsDistinctKeys`.
- `Navigation.NavigateSpec` is `navigate` (wizard/__init__.py:240-254). See `WizardClass.Wizard.Navigate`, `Navigation.NavigateSound`, `Navigation.NoActionStays`, `Navigation.ActionMoves` and `Navigation.UnknownStepFails`.
- `Display.WizardData` is `add_wizard_data_to_template` (wizard/__init__.py:276-287). See `WizardClass.Wizard.AddWizardDataToTemplate` and `Display.WizardDataEntries`.
- `Dispatch.ShowCycle` is `render(request, do_display(step), step)` (wizard/__init__.py:261-274). See `WizardClass.Wizard.ShowStep` and `Dispatch.NavigatedStepReady`.
- `Dispatch.GetCycle` is `get` (wizard/__init__.py:256-261). See `WizardClass.Wizard.Get`, `Dispatch.GetRendersOpenStep` and `Dispatch.GetRedirectsIffFlagged`.
- `Dispatch.PostCycle` is `post` (wizard/__init__.py:207-215). See `WizardClass.Wizard.Post`, `Dispatch.FailedSaveRendersSameStep` and `Dispatch.SavedPostRedirects`.
- `Dispatch.RequestCycle` is `handle_request` (wizard/__init__.py:109-125). See `WizardClass.Wizard.HandleRequest`, `Dispatch.NoStepRedirectsToFirst` and `Dispatch.UnknownStepIsNotFound`.

| member | source | states |
|---|---|---|
| Steps.InstantiateCall | wizard/__init__.py:177-192 | the step class receives the positional args exactly when there are any and the keyword args exactly when there are any, each group passed whole |
| Steps.Materialize | wizard/__init__.py:169-175 | a class slot becomes an instance of the same class stamped with `_key`, `_wizard` and `_current_step` and built with the step init args; an instance slot is kept unchanged |
| Steps.MaterializeIdempotent | wizard/__init__.py:169-175 | fetching a step a second time returns the memoised instance: the class is instantiated only once |
| Steps.MaterializeKeyPointwise | wizard/__init__.py:164-175 | fetching one key replaces only that key's slot, and only when it is truthy; the key set is unchanged |
| Steps.MaterializeAllPointwise | wizard/__init__.py:164-175 | after fetching any sequence of keys, each truthy slot named holds the materialisation of its original content, whatever the order and repetitions, and every other slot is unchanged |
| Registry.DictOfLastWins | wizard/__init__.py:102-107 | `dict(steps_tuple)` maps each key to the provider of the last pair with that key |
| Registry.TotalStepsIsDistinctKeys | wizard/__init__.py:141-142 | `total_steps()` after initialisation is the number of distinct keys; it equals the tuple length when keys are unique |
| Registry.DistinctCount | wizard/__init__.py:107 | a key sequence has at most as many distinct keys as entries, and exactly as many when the keys are unique |
| Registry.Position | wizard/__init__.py:127-135 | the index of the first pair with the key; ValueError exactly when the key is absent |
| Registry.PositionOfUnique | wizard/__init__.py:127-135 | with unique keys, the position of the i-th key is i |
| Registry.KeyAtNeverRaises | wizard/__init__.py:147-153 | on a non-empty tuple whose dictionary was built from it, `get_step_key_by_position` never raises and names a registered key |
| Registry.KeyAtClamps | wizard/__init__.py:147-153 | below 0 gives the first key, 0..total-1 the key at that index (always inside the tuple), and from total on the last key, also when keys repeat; with unique keys this is the key at the clamped index |
| Registry.PositionKeyAtRoundTrip | wizard/__init__.py:127-153 | the key at the position of a key is that key, and the position of the key at p is p clamped |
| Prereq.ViewOfMaterializeKey | wizard/__init__.py:225 | materialising a slot does not change what `handle_prereq` reads: the keys, the total and the prereq outcomes |
| Prereq.ResolveSettledStep | wizard/__init__.py:224-227 | a satisfied step is the answer: no redirect, and prereq() then the prereq signal |
| Prereq.ResolveBlockedStep | wizard/__init__.py:228-238 | a blocked step sets the flag, flashes its message and continues at the next hop |
| Prereq.ResolveBlockedFails | wizard/__init__.py:231-233 | when the position or neighbour lookup raises after a blocked step, the error ends the chase with the flag set |
| Prereq.ResolveBlockedOnSlots | wizard/__init__.py:224-238 | on the step dictionary, fetching a blocked step materialises it without changing the view, and the chase continues from the next hop |
| Prereq.ResolveSettledOnSlots | wizard/__init__.py:224-227 | on the step dictionary, a satisfied step resolves to itself and materialises only its own slot |
| Prereq.ResolveSound | wizard/__init__.py:217-238 | a result is a registered step whose prereq is satisfied and the last one chased; the redirect flag is set iff the first step chased is blocked; only registered steps are chased |
| Prereq.RedirectIffMoved | wizard/__init__.py:228-229 | when the chase succeeds, it flags a redirect iff the resolved key differs from the requested one |
| Prereq.StayWithoutTargetIsNotFound | wizard/__init__.py:237-238 | direction 0 on a blocked step without a target recurses on `None` and ends in Http404, with the flag set |
| Prereq.ChainedJumps | wizard/__init__.py:237-238 | a chain of explicit targets resolves in one call to its final open step, chasing exactly the chain, with a redirect iff the chain has more than one step |
| Prereq.JumpMessagesInOrder | wizard/__init__.py:21-29 | two chained jumps forward their messages in visiting order, each right after that step's prereq() call, and land on the open step |
| Prereq.WalkDistanceStep | wizard/__init__.py:231-236 | each call of a walk that has not reached its target brings it one call closer, counting the bounce at a boundary |
| Prereq.WalkStep | wizard/__init__.py:231-236 | on a consistent registry, one step of the walk goes to the neighbouring key inside the sequence, and stays on the same key at a boundary |
| Prereq.KeyAtConsistent | wizard/__init__.py:147-153 | on a consistent registry the clamped lookup always succeeds |
| Prereq.ResolveWalkConsistent | wizard/__init__.py:231-236 | from a blocked position the walk continues at the clamped neighbour, reversing direction on a bounce |
| Prereq.WalkReaches | wizard/__init__.py:231-236 | a walk by ±1 reaches an open step within the computed number of calls: the bounce brings it back into the sequence |
| Prereq.AllBlockedNeverSettles | wizard/__init__.py:231-236 | a walk with every step blocked never settles and runs into the recursion limit |
| Prereq.WalkSettlesIff | wizard/__init__.py:217-238 | with 2n calls of stack, a ±1 walk settles iff some step's prereq is satisfied |
| Navigation.FirstAction | wizard/__init__.py:247-252 | the direction of the first configured action present in the request; none iff no configured action is present |
| Navigation.FirstActionAt | wizard/__init__.py:247-252 | only the first matching action counts, whatever later ones say |
| Navigation.NavigateSound | wizard/__init__.py:240-254 | navigate lands on a registered step whose prereq is satisfied and that it chased |
| Navigation.NoActionStays | wizard/__init__.py:245-246 | with no action present, an open step resolves to itself, with no redirect |
| Navigation.ActionMoves | wizard/__init__.py:247-254 | an action of direction d moves from position p to the open step at p+d, with no redirect |
| Navigation.UnknownStepFails | wizard/__init__.py:249 | navigating from an unregistered step raises ValueError when an action is present (the position lookup of lines 127-135) and Http404 otherwise |
| Navigation.MoveSpec | wizard/__init__.py:289-294 | a link is returned only for a key other than the current step, and that key is the chase's result |
| Navigation.NoLinkPastEdges | wizard/__init__.py:289-300 | no previous link on an open first step and no next link on an open last step |
| Navigation.NextLinkSkipsBlocked | wizard/__init__.py:289-297 | the next link skips a blocked neighbour and points at the open step after it |
| Urls.UrlFor | wizard/__init__.py:194-202 | the stored kwargs with `step` set, else the stored args followed by the step, else `{'step': step}`; the target always names the step and keeps the configured arguments |
| Urls.SecondUrlIndependentOfFirst | wizard/__init__.py:194-202 | with `url_args` left as configured, a later get_url passes the same arguments as a first call would |
| Urls.AsWrittenSecondUrlCarriesFirstStep | wizard/__init__.py:198-200 | as written, the second positional get_url of a cycle passes the first step too |
| Urls.GetUrlKeepsArgsUnmixed | wizard/__init__.py:194-202 | after any get_url the stored args and kwargs still satisfy the rule of `set_redirect_args` (lines 92-100) |
| Display.WizardDataEntries | wizard/__init__.py:276-287 | the template sees the step's data, the template args and `step_key`, `step` and `wizard`; later sources overwrite earlier ones |
| Display.MergeTemplateArgs | wizard/__init__.py:281-283 | the copy loop gives every template arg its value and leaves other entries alone |
| Display.MergeIsUnion | wizard/__init__.py:281-283 | the loop's result is the union of the data and the template args, with the template args winning |
| Dispatch.NavigatedStepReady | wizard/__init__.py:256-261 | after navigation (which materialises each visited step, lines 269-270) the resolved step already holds its instance, so displaying and rendering it fetch the same object |
| Dispatch.NoStepRedirectsToFirst | wizard/__init__.py:119-120 | a request without a step redirects to the first key; on an empty tuple it raises IndexError |
| Dispatch.UnknownStepIsNotFound | wizard/__init__.py:122-125 | a POST or GET for an unregistered step raises Http404, or ValueError for a GET that carries an action (lines 164-167 and 249) |
| Dispatch.GetRendersOpenStep | wizard/__init__.py:256-261 | a GET with no action for an open step renders it; prereq(), display() and template() are called once each on that step, and no other slot is instantiated |
| Dispatch.FailedSaveRendersSameStep | wizard/__init__.py:207-213 | a POST whose save() raises SaveStepException renders the same step, calls display() once, and does not send the post-save signal |
| Dispatch.SavedPostRedirects | wizard/__init__.py:207-215 | a POST whose save() succeeds redirects to the navigated step, or raises navigation's error; pre-save, save(), post-save come first |
| Dispatch.GetRedirectsIffFlagged | wizard/__init__.py:256-261 | a GET redirects iff the flag was already set or a prerequisite failed on the way, and renders the resolved step otherwise |
| WizardClass.Wizard.constructor | wizard/__init__.py:45-68 | the initial fields; empty navigation options mean the four default actions |
| WizardClass.Wizard.SetCommonTemplateArgs | wizard/__init__.py:78-83 | stores the template args |
| WizardClass.Wizard.SetStepInitArgs | wizard/__init__.py:85-90 | stores the step init args |
| WizardClass.Wizard.SetRedirectArgs | wizard/__init__.py:92-100 | ValueError, with nothing stored, when both args and kwargs are given; otherwise stores both |
| WizardClass.Wizard.InitializeSteps | wizard/__init__.py:102-107 | the tuple from the callback or the static tuple, and the dictionary built from it |
| WizardClass.Wizard.HandleRequest | wizard/__init__.py:109-125 | records the request and step, re-initialises, and answers as RequestCycle |
| WizardClass.Wizard.DispatchStep | wizard/__init__.py:119-125 | the redirect to the first key without a step, otherwise POST, GET, or no response for another verb; `steps_tuple` is re-read exactly for a GET with a step or a POST whose save succeeds, and kept otherwise |
| WizardClass.Wizard.GetStepPosition | wizard/__init__.py:127-135 | the linear search returns Position |
| WizardClass.Wizard.GetStepNumber | wizard/__init__.py:137-139 | the 1-based index of the first pair with the key, ValueError iff it is absent |
| WizardClass.Wizard.TotalSteps | wizard/__init__.py:141-142 | the dictionary's size, the number of distinct keys after initialisation |
| WizardClass.Wizard.GetNextStepKey | wizard/__init__.py:144-145 | the key after the step without clamping: IndexError on the last step, ValueError on an unknown one |
| WizardClass.Wizard.GetStepKeyByPosition | wizard/__init__.py:147-153 | returns KeyAt, the clamped lookup |
| WizardClass.Wizard.GetNeighbour | wizard/__init__.py:232-233 | the clamped key `dir` places from a key |
| WizardClass.Wizard.GetSteps | wizard/__init__.py:155-162 | every (key, instance) pair in tuple order; Http404 iff some key's slot is absent or falsy, and then the dictionary holds exactly the keys before the first such one materialised, every later slot unchanged |
| WizardClass.Wizard.GetStepObjectByKey | wizard/__init__.py:164-175 | Http404 iff the key is absent or its slot falsy; otherwise the slot is materialised and its instance returned |
| WizardClass.Wizard.CurrentStepObject | wizard/__init__.py:70-76 | the instance of the requested step, Http404 when there is none |
| WizardClass.Wizard.InstantiateStep | wizard/__init__.py:177-192 | a fresh instance of the class built with InstantiateCall |
| WizardClass.Wizard.GetUrl | wizard/__init__.py:194-202 | the arguments of UrlFor; the keyword branch writes `step` into the stored kwargs; the positional branch leaves `url_args` as configured (the corrected half of the finding below) |
| WizardClass.Wizard.GetUrlAsWritten | wizard/__init__.py:194-202 | as GetUrl, but the positional branch also rebinds the stored args to the grown tuple |
| WizardClass.Wizard.Redirect | wizard/__init__.py:204-205 | a redirect to the step with the arguments of the corrected GetUrl |
| WizardClass.Wizard.RedirectTo | wizard/__init__.py:120 | as in handle_request and in post (line 215), redirects to a looked-up key, or propagates the lookup's error |
| WizardClass.Wizard.Post | wizard/__init__.py:207-215 | pre-save, then save(), then re-render on SaveStepException or post-save and redirect to the navigated step, as PostCycle; `steps_tuple` is re-read exactly when the step exists, is truthy and its save succeeds |
| WizardClass.Wizard.SaveStep | wizard/__init__.py:210-215 | the outcome of save() decides between re-render and redirect, as SaveCycle; only a successful save re-reads `steps_tuple` |
| WizardClass.Wizard.NavigateAndRedirect | wizard/__init__.py:215 | navigates and redirects to the result, as NavigateRedirectCycle |
| WizardClass.Wizard.HandlePrereq | wizard/__init__.py:217-238 | result, redirect flag, dictionary and trace as Resolve describes |
| WizardClass.Wizard.HandleMissing | wizard/__init__.py:228-238 | after PrereqMissing: the message and flag, then the chase from the next hop |
| WizardClass.Wizard.FindNextHop | wizard/__init__.py:231-238 | the exception's target with direction 0, else the clamped neighbour with the direction reversed on a bounce |
| WizardClass.Wizard.ChaseHop | wizard/__init__.py:233-238 | the recursive call on the next hop, or the lookup's error |
| WizardClass.Wizard.FindStart | wizard/__init__.py:245-252 | the scan loop returns NavStart: the first present action's neighbour, or the step with direction 0 |
| WizardClass.Wizard.Navigate | wizard/__init__.py:240-254 | re-initialises the steps, then the chase from NavStart |
| WizardClass.Wizard.Get | wizard/__init__.py:256-261 | navigates, then redirects if flagged and otherwise renders, as GetCycle |
| WizardClass.Wizard.AnswerGet | wizard/__init__.py:258-261 | redirects to the resolved step when the flag is set, else displays and renders it |
| WizardClass.Wizard.ShowStep | wizard/__init__.py:261 | `render(request, do_display(step), step)`, as ShowCycle; post's failed save does the same (line 213) |
| WizardClass.Wizard.Render | wizard/__init__.py:263-267 | Http404 for a missing step, else the rendered response and one template() call |
| WizardClass.Wizard.DoDisplay | wizard/__init__.py:269-274 | pre-display, display(), post-display, then WizardData of display()'s result |
| WizardClass.Wizard.AddWizardDataToTemplate | wizard/__init__.py:276-287 | the data merged with the template args and the three wizard entries, or Http404 |
| WizardClass.Wizard.MoveStepDirection | wizard/__init__.py:289-294 | the link of MoveSpec, with the flag, dictionary and trace of its chase |
| WizardClass.Wizard.NextStepUrl | wizard/__init__.py:296-297 | MoveStepDirection(1) |
| WizardClass.Wizard.PrevStepUrl | wizard/__init__.py:299-300 | MoveStepDirection(-1) |

## Left out

- HTTP objects: `HttpResponse`, `HttpResponseRedirect`, `RequestContext` and template rendering are reduced to `Response` values (`Redirected(step, url arguments)`, `Rendered(step, data)`). The `mimetype` attribute of a step is not modelled.
- `urlresolvers.reverse` is not modelled. A URL is the argument set handed to it (`UrlTarget`). `NoReverseMatch` is not modelled, and neither is the base URL name's part in reversal.
- Signals (`wizard_pre_save`, `wizard_post_save`, `wizard_prereq`, `wizard_pre_display`, `wizard_post_display`) and `messages.add_message` appear only as events of the ghost trace. Their receivers are not modelled. A message is flashed only when `PrereqMissing` gets both a request and a message, and `Missing.flash` records the resulting flash.
- `request.REQUEST` is modelled as the set of parameter names present. The values are not read.
- `navigation_opts` is a dict. Its iteration order is modelled as a sequence fixed when the wizard is built.
- `inspect.isclass` and `callable(steps_callback)` are replaced by the tagged `Slot` and `StepsSource` datatypes. The callback is a total function of the request.
- A step instance is a value with identity-free equality. Two instances built from the same class with the same arguments and stamps are equal in the model.
- An instance placed directly in the tuple is always truthy. A falsy slot is written `Falsy`.
- Python's recursion limit is modelled by the `MaxDepth` (1000) budget of `Resolve`. Running out of it gives `RecursionLimit`. The real limit depends on the stack already in use.
- The constructor sets `steps`, `steps_tuple`, `url_args`, `url_kwargs`, `args`, `kwargs` and `template_args` to `None`. The model uses the empty tuple, map and sequence instead. Before `initialize_steps`, `steps.get` on `None` raises AttributeError, which the model gives as Http404 on the empty dictionary. Likewise `get_step_position` raises TypeError from `enumerate(None)` (wizard/__init__.py:131), which the model gives as ValueError on the empty tuple, and `total_steps` raises TypeError from `len(None)` (wizard/__init__.py:142), where the model counts 0 and `get_step_key_by_position` then gives IndexError on the empty tuple.
- `direction=None` (the default of `handle_prereq`) is modelled as direction 0, which it behaves like.
- WizardClass.Wizard.MoveStepDirection: when `_current_step` is None, the source raises TypeError while building the ValueError message. The model gives ValueError.
- WizardClass.Wizard.GetSteps: the source returns a lazy generator that fetches each step as the caller iterates. The model fetches all steps eagerly and stops with Http404 at the first absent or falsy slot. The earlier slots stay materialised, as they would after a partial iteration.
- `handle_prereq` has no bound of its own: a cycle of explicit targets, or a ±1 walk with every step blocked, recurses until the recursion limit (`Prereq.AllBlockedNeverSettles`); only the `MaxDepth` budget above stops it.
- Direction 0 with no target fetches `steps.get(None)` in `handle_prereq`, which raises Http404 (`Prereq.StayWithoutTargetIsNotFound`).
- `navigate` re-initialises the registry, which drops every instance fetched earlier in the cycle, such as the one whose `save()` ran in `post` (`WizardClass.Wizard.Navigate`).
- `add_wizard_data_to_template` writes the template args and the three wizard entries into the very dictionary `display()` returned (wizard/__init__.py:280-286), so a step that keeps and returns the same dictionary sees it changed. `Display.WizardData` builds a new map, so the model does not capture this aliasing.
- A step's `display()` result is a dictionary in the model, so `display() or {}` (wizard/__init__.py:272) has nothing to replace: a `None` result is modelled as the empty dictionary it turns into.
- WizardClass.Wizard.GetUrl: uses the corrected positional branch, which reverses the configured `url_args` followed by the step and keeps `url_args`; the source also rebinds `url_args` to the grown tuple (wizard/__init__.py:199). `WizardClass.Wizard.GetUrlAsWritten` models the source's version, which no other member calls.
- WizardClass.Wizard.Redirect: built on the corrected GetUrl, so `url_args` is kept, where the source appends the step to it on the positional branch.
- WizardClass.Wizard.RedirectTo: redirects through the corrected GetUrl and keeps `url_args`, where the source grows it on the positional branch.
- WizardClass.Wizard.AnswerGet: its redirect keeps `url_args`, where the source grows it on the positional branch.
- WizardClass.Wizard.Get: its redirect keeps `url_args`, where the source grows it on the positional branch.
- WizardClass.Wizard.NavigateAndRedirect: its redirect keeps `url_args`, where the source grows it on the positional branch.
- WizardClass.Wizard.SaveStep: the redirect after a successful save keeps `url_args`, where the source grows it on the positional branch.
- WizardClass.Wizard.Post: the redirect after a successful save keeps `url_args`, where the source grows it on the positional branch.
- WizardClass.Wizard.DispatchStep: its redirects keep `url_args`, where the source grows it on the positional branch.
- WizardClass.Wizard.HandleRequest: its redirects keep `url_args`, so a later request on the same wizard sees the configured arguments, where the source would see them grown by every earlier positional redirect.
- WizardClass.Wizard.MoveStepDirection: its link keeps `url_args`, where the source grows it on the positional branch.
- WizardClass.Wizard.NextStepUrl: its link carries the configured `url_args` and the step only, also after an earlier positional link, where the source's would also carry the earlier link's step.
- WizardClass.Wizard.PrevStepUrl: its link keeps `url_args`, where the source grows it on the positional branch.
- Concurrency is not modelled: one request is handled at a time by one wizard.

## Findings

| source | as written | input that shows it | evidently intended | confidence | as-written member | corrected member |
|---|---|---|---|---|---|---|
| wizard/__init__.py:198-200 | the positional branch of `get_url` rebinds `self.url_args` to `url_args + (step,)`, so each call adds its step to the stored arguments | `set_redirect_args(1234, 'asdf')`, current step `second`: `prev_step_url()` reverses `(1234, 'asdf', 'first')`, then `next_step_url()` reverses `(1234, 'asdf', 'first', 'third')` | every call reverses the configured arguments followed by its own step, `(1234, 'asdf', 'third')` for the second link, as the keyword branch already does | not executed; high, because the keyword branch overwrites `step` and does not accumulate | WizardClass.Wizard.GetUrlAsWritten, Urls.AsWrittenSecondUrlCarriesFirstStep | WizardClass.Wizard.GetUrl, Urls.SecondUrlIndependentOfFirst |
