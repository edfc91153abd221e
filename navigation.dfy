/**
 * Turning the request's action tokens into a direction (`navigate`,
 * wizard/__init__.py:240-254) and the link helpers built on the same walk
 * (`move_step_direction`, wizard/__init__.py:289-300).
 */
module Navigation {
  import opened Wrappers
  import opened Steps
  import opened Registry
  import opened Prereq

  /** The navigation options a Wizard gets when none (or an empty dict) is given. */
  const DefaultOptions: seq<(string, int)> :=
    [("wizard_save", 0), ("wizard_continue", 1), ("wizard_previous", -1), ("wizard_next", 1)]

  /** The direction of the first configured action present in the request, if any. */
  function FirstAction(opts: seq<(string, int)>, present: set<string>): (r: Option<int>)
    ensures r.None? <==> forall i :: 0 <= i < |opts| ==> opts[i].0 !in present
    ensures r.Some? ==> exists i :: 0 <= i < |opts| && opts[i].0 in present && opts[i].1 == r.value
                                    && forall j :: 0 <= j < i ==> opts[j].0 !in present
  {
    if opts == [] then None
    else if opts[0].0 in present then Some(opts[0].1)
    else
      var r := FirstAction(opts[1..], present);
      assert forall i :: 0 < i < |opts| ==> opts[i] == opts[1..][i - 1];
      r
  }

  /** Only the first matching action counts, whatever later ones say. */
  lemma {:induction false} FirstActionAt(opts: seq<(string, int)>, present: set<string>, i: nat)
    requires i < |opts| && opts[i].0 in present
    requires forall j :: 0 <= j < i ==> opts[j].0 !in present
    ensures FirstAction(opts, present) == Some(opts[i].1)
  {
    if i > 0 {
      FirstActionAt(opts[1..], present, i - 1);
    }
  }

  /**
   * Where navigate() starts the chase: with a matching action of direction
   * d, the key at position(step) + d (the lookups may raise); otherwise the
   * step itself with direction 0.
   */
  function NavStart(keys: seq<Key>, total: nat, opts: seq<(string, int)>, present: set<string>, step: Key): Result<(Key, int), Error> {
    match FirstAction(opts, present)
    case None => Ok((step, 0))
    case Some(d) =>
      match Neighbour(keys, total, step, d)
      case Err(e) => Err(e)
      case Ok(candidate) => Ok((candidate, d))
  }

  /** `navigate(request, step)` after the steps were initialised: the start of the chase, then the chase. */
  function NavigateSpec(v: View, opts: seq<(string, int)>, present: set<string>, step: Key, depth: nat): Resolution {
    match NavStart(v.keys, v.total, opts, present, step)
    case Err(e) => Resolution(Err(e), false, [], [])
    case Ok(start) => Resolve(v, Some(start.0), start.1, depth)
  }

  /** navigate() lands on a registered step whose prereq is satisfied, after chasing registered steps only. */
  lemma NavigateSound(v: View, opts: seq<(string, int)>, present: set<string>, step: Key, depth: nat)
    ensures var r := NavigateSpec(v, opts, present, step, depth);
      && (r.result.Ok? ==> r.result.value in v.prereqs && v.prereqs[r.result.value].Satisfied?
                           && r.result.value in r.visited)
      && (forall i :: 0 <= i < |r.visited| ==> r.visited[i] in v.prereqs)
  {
    match NavStart(v.keys, v.total, opts, present, step)
    case Err(_) =>
    case Ok(start) => ResolveSound(v, Some(start.0), start.1, depth);
  }

  /** With no action present the wizard stays: an open step resolves to itself without a redirect. */
  lemma NoActionStays(v: View, opts: seq<(string, int)>, present: set<string>, step: Key, depth: nat)
    requires forall i :: 0 <= i < |opts| ==> opts[i].0 !in present
    requires depth > 0 && step in v.prereqs && v.prereqs[step].Satisfied?
    ensures NavigateSpec(v, opts, present, step, depth) ==
      Resolution(Ok(step), false, [step], [PrereqCalled(step), PrereqSignal(step)])
  {
  }

  /**
   * An action of direction d moves from position p to position p + d when
   * that step is open and inside the sequence; no redirect is flagged.
   */
  lemma ActionMoves(v: View, opts: seq<(string, int)>, present: set<string>, i: nat, p: nat, depth: nat)
    requires Consistent(v) && p < |v.keys| && depth > 0
    requires i < |opts| && opts[i].0 in present && forall j :: 0 <= j < i ==> opts[j].0 !in present
    requires 0 <= p + opts[i].1 < |v.keys| && v.prereqs[v.keys[p + opts[i].1]].Satisfied?
    ensures NavigateSpec(v, opts, present, v.keys[p], depth).result == Ok(v.keys[p + opts[i].1])
    ensures !NavigateSpec(v, opts, present, v.keys[p], depth).redirected
  {
    FirstActionAt(opts, present, i);
    PositionOfUnique(v.keys, p);
    KeyAtConsistent(v, p + opts[i].1);
  }

  /** Navigating from a step the registry does not hold raises ValueError with an action, Http404 without. */
  lemma UnknownStepFails(v: View, opts: seq<(string, int)>, present: set<string>, step: Key, depth: nat)
    requires step !in v.keys && step !in v.prereqs && depth > 0
    ensures FirstAction(opts, present).Some? ==> NavigateSpec(v, opts, present, step, depth).result == Err(ValueError)
    ensures FirstAction(opts, present).None? ==> NavigateSpec(v, opts, present, step, depth).result == Err(NotFound)
  {
  }

  /** The outcome of move_step_direction: the chase, and the key to link to unless it is the current step. */
  datatype Move = Move(res: Resolution, link: Result<Option<Key>, Error>)

  function MoveSpec(v: View, current: Option<Key>, dir: int, depth: nat): (m: Move)
    ensures m.link.Ok? && m.link.value.Some? ==> current != Some(m.link.value.value)
                                                  && m.res.result == Ok(m.link.value.value)
    ensures m.link.Ok? && m.link.value.None? ==> current.Some? && m.res.result == Ok(current.value)
  {
    if current.None? then Move(Resolution(Err(ValueError), false, [], []), Err(ValueError))
    else match Neighbour(v.keys, v.total, current.value, dir)
      case Err(e) => Move(Resolution(Err(e), false, [], []), Err(e))
      case Ok(next) =>
        var res := Resolve(v, Some(next), dir, depth);
        match res.result
        case Err(e) => Move(res, Err(e))
        case Ok(k) => Move(res, Ok(if Some(k) != current then Some(k) else None))
  }

  /** No previous link on the first step and no next link on the last, when those steps are open. */
  lemma NoLinkPastEdges(v: View, depth: nat)
    requires Consistent(v) && depth > 0
    ensures v.prereqs[v.keys[0]].Satisfied? ==> MoveSpec(v, Some(v.keys[0]), -1, depth).link == Ok(None)
    ensures v.prereqs[v.keys[|v.keys| - 1]].Satisfied? ==>
      MoveSpec(v, Some(v.keys[|v.keys| - 1]), 1, depth).link == Ok(None)
  {
    PositionOfUnique(v.keys, 0);
    PositionOfUnique(v.keys, |v.keys| - 1);
    KeyAtConsistent(v, -1);
    KeyAtConsistent(v, |v.keys|);
  }

  /** Moving forward skips a blocked neighbour: from p, with p+1 blocked and p+2 open, the link is p+2. */
  lemma NextLinkSkipsBlocked(v: View, p: nat, depth: nat)
    requires Consistent(v) && p + 2 < |v.keys| && depth > 1
    requires v.prereqs[v.keys[p + 1]].Missing? && v.prereqs[v.keys[p + 2]].Satisfied?
    ensures MoveSpec(v, Some(v.keys[p]), 1, depth).link == Ok(Some(v.keys[p + 2]))
  {
    WalkStep(v, p, 1);
    WalkStep(v, p + 1, 1);
    assert Resolve(v, Some(v.keys[p + 2]), 1, depth - 1).result == Ok(v.keys[p + 2]);
    assert Resolve(v, Some(v.keys[p + 1]), 1, depth).result == Ok(v.keys[p + 2]);
    UniqueDistinct(v.keys, p, p + 2);
  }
}
