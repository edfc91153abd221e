/**
 * The recursive prerequisite chaser `handle_prereq` (wizard/__init__.py:217-238)
 * as a function of what it reads: the tuple's keys, `total_steps()`, and the
 * prereq() outcome of every truthy slot.
 */
module Prereq {
  import opened Wrappers
  import opened Steps
  import opened Registry

  /**
   * Python's recursion limit: handle_prereq calls itself once per blocked
   * step and raises RecursionError when the chain never settles.
   */
  const MaxDepth: nat := 1000

  /** What handle_prereq reads of the wizard: keys in tuple order, total_steps(), prereq outcomes. */
  datatype View = View(keys: seq<Key>, total: nat, prereqs: map<Key, PrereqOutcome>)

  function ViewOf(defs: seq<StepDef>, slots: map<Key, Slot>): (v: View)
    ensures v.keys == Keys(defs) && v.total == |slots|
    ensures forall k :: k in v.prereqs <==> k in slots && Truthy(slots[k])
    ensures forall k :: k in v.prereqs ==> v.prereqs[k] == BehaviourOf(slots[k]).prereq
  {
    View(Keys(defs), |slots|, map k | k in slots && Truthy(slots[k]) :: BehaviourOf(slots[k]).prereq)
  }

  /** Materialising a slot does not change what handle_prereq reads. */
  lemma ViewOfMaterializeKey(defs: seq<StepDef>, slots: map<Key, Slot>, k: Key, ctx: Context)
    ensures ViewOf(defs, MaterializeKey(slots, k, ctx)) == ViewOf(defs, slots)
  {
    var after := MaterializeKey(slots, k, ctx);
    MaterializeKeyPointwise(slots, k, ctx);
    assert |after| == |slots| by {
      assert after.Keys == slots.Keys;
    }
    assert ViewOf(defs, after).prereqs == ViewOf(defs, slots).prereqs;
  }

  /**
   * One run of handle_prereq: its result, whether it set `do_redirect`, the
   * keys whose prereq() it called (their objects are materialised), and the
   * events it produced.
   */
  datatype Resolution = Resolution(result: Result<Key, Error>, redirected: bool, visited: seq<Key>, events: seq<Event>)

  function FlashEvents(flash: Option<string>): seq<Event> {
    match flash
    case Some(m) => [Flash(m)]
    case None => []
  }

  /**
   * Where handle_prereq goes after a blocked step `k`: with direction 0 to
   * the exception's target; otherwise to the key at the clamped position
   * `get_step_position(k) + dir`, reversing the direction when clamping kept
   * it on `k`. Each lookup can raise.
   */
  function NextHop(keys: seq<Key>, total: nat, k: Key, target: Option<Key>, dir: int): Result<(Option<Key>, int), Error> {
    if dir == 0 then Ok((target, 0))
    else match Neighbour(keys, total, k, dir)
      case Err(e) => Err(e)
      case Ok(next) => Ok((Some(next), if next == k then -dir else dir))
  }

  /**
   * `handle_prereq(key, dir)` with `depth` calls of stack left. A satisfied
   * step is the answer; a blocked step sets the redirect flag and then walks
   * by `dir` (bouncing back with -dir when clamping keeps it on the same key)
   * or, with direction 0, jumps to the exception's target; a missing target
   * makes the next lookup raise Http404.
   */
  function Resolve(v: View, key: Option<Key>, dir: int, depth: nat): Resolution
    decreases depth, 0
  {
    if depth == 0 then Resolution(Err(RecursionLimit), false, [], [])
    else if key.None? || key.value !in v.prereqs then Resolution(Err(NotFound), false, [], [])
    else
      var k := key.value;
      match v.prereqs[k]
      case Satisfied => Resolution(Ok(k), false, [k], [PrereqCalled(k), PrereqSignal(k)])
      case Missing(target, flash) =>
        var rest := Chase(v, NextHop(v.keys, v.total, k, target, dir), depth - 1);
        Resolution(rest.result, true, [k] + rest.visited, [PrereqCalled(k)] + FlashEvents(flash) + rest.events)
  }

  /**
   * What follows a blocked step: the recursive call on its next hop, or
   * nothing but the error the lookup of that hop raised.
   */
  function Chase(v: View, hop: Result<(Option<Key>, int), Error>, depth: nat): Resolution
    decreases depth, 1
  {
    match hop
    case Err(e) => Resolution(Err(e), false, [], [])
    case Ok(h) => Resolve(v, h.0, h.1, depth)
  }

  /** One level of Resolve on an open key: the key itself, with no redirect. */
  lemma ResolveSettledStep(v: View, k: Key, dir: int, depth: nat)
    requires depth > 0 && k in v.prereqs && v.prereqs[k].Satisfied?
    ensures Resolve(v, Some(k), dir, depth) == Resolution(Ok(k), false, [k], [PrereqCalled(k), PrereqSignal(k)])
  {
  }

  /** One level of Resolve on a blocked key: the call on the next hop follows. */
  lemma ResolveBlockedStep(v: View, k: Key, dir: int, depth: nat, next: Option<Key>, nd: int)
    requires depth > 0 && k in v.prereqs && v.prereqs[k].Missing?
    requires NextHop(v.keys, v.total, k, v.prereqs[k].target, dir) == Ok((next, nd))
    ensures var rest := Resolve(v, next, nd, depth - 1);
      Resolve(v, Some(k), dir, depth)
        == Resolution(rest.result, true, [k] + rest.visited, [PrereqCalled(k)] + FlashEvents(v.prereqs[k].flash) + rest.events)
  {
  }

  /** One level of Resolve on a blocked key whose position or neighbour lookup raises. */
  lemma ResolveBlockedFails(v: View, k: Key, dir: int, depth: nat, e: Error)
    requires depth > 0 && k in v.prereqs && v.prereqs[k].Missing?
    requires NextHop(v.keys, v.total, k, v.prereqs[k].target, dir) == Err(e)
    ensures Resolve(v, Some(k), dir, depth)
      == Resolution(Err(e), true, [k], [PrereqCalled(k)] + FlashEvents(v.prereqs[k].flash))
  {
  }

  /**
   * One call of handle_prereq on the step dictionary: fetching a blocked `k`
   * materialises its slot without changing the view, and the chase goes on
   * from the next hop, or stops with the error a lookup raised.
   */
  lemma ResolveBlockedOnSlots(defs: seq<StepDef>, slots: map<Key, Slot>, k: Key, dir: int, depth: nat, ctx: Context)
    requires depth > 0 && k in slots && Truthy(slots[k]) && BehaviourOf(slots[k]).prereq.Missing?
    ensures var v := ViewOf(defs, slots);
      var after := MaterializeKey(slots, k, ctx);
      var p := BehaviourOf(slots[k]).prereq;
      var rest := Chase(v, NextHop(Keys(defs), |after|, k, p.target, dir), depth - 1);
      && ViewOf(defs, after) == v
      && Resolve(v, Some(k), dir, depth)
           == Resolution(rest.result, true, [k] + rest.visited, [PrereqCalled(k)] + (FlashEvents(p.flash) + rest.events))
      && MaterializeAll(slots, [k] + rest.visited, ctx) == MaterializeAll(after, rest.visited, ctx)
  {
    var v := ViewOf(defs, slots);
    var p := BehaviourOf(slots[k]).prereq;
    ViewOfMaterializeKey(defs, slots, k, ctx);
    var rest := Chase(v, NextHop(v.keys, v.total, k, p.target, dir), depth - 1);
    MaterializeAllCons(slots, k, rest.visited, ctx);
    AppendAssoc([PrereqCalled(k)], FlashEvents(p.flash), rest.events);
  }

  /** One call of handle_prereq on the step dictionary when the prereq of `k` is satisfied. */
  lemma ResolveSettledOnSlots(defs: seq<StepDef>, slots: map<Key, Slot>, k: Key, dir: int, depth: nat, ctx: Context)
    requires depth > 0 && k in slots && Truthy(slots[k]) && BehaviourOf(slots[k]).prereq.Satisfied?
    ensures Resolve(ViewOf(defs, slots), Some(k), dir, depth) == Resolution(Ok(k), false, [k], [PrereqCalled(k), PrereqSignal(k)])
    ensures MaterializeAll(slots, [k], ctx) == MaterializeKey(slots, k, ctx)
  {
    ResolveSettledStep(ViewOf(defs, slots), k, dir, depth);
    MaterializeAllCons(slots, k, [], ctx);
    assert [k] + [] == [k];
  }

  /**
   * What handle_prereq promises: a result is a key whose prereq is
   * satisfied and the last one chased; the redirect flag is set exactly
   * when the first key chased is blocked; every key chased is registered.
   */
  lemma {:induction false} ResolveSound(v: View, key: Option<Key>, dir: int, depth: nat)
    ensures var r := Resolve(v, key, dir, depth);
      && (r.result.Ok? ==> r.result.value in v.prereqs && v.prereqs[r.result.value].Satisfied?
                           && |r.visited| > 0 && r.visited[|r.visited| - 1] == r.result.value)
      && (r.redirected <==> depth > 0 && key.Some? && key.value in v.prereqs && v.prereqs[key.value].Missing?)
      && (forall i :: 0 <= i < |r.visited| ==> r.visited[i] in v.prereqs)
    decreases depth
  {
    if depth > 0 && key.Some? && key.value in v.prereqs {
      var k := key.value;
      if v.prereqs[k].Satisfied? {
        ResolveSettledStep(v, k, dir, depth);
      } else {
        match NextHop(v.keys, v.total, k, v.prereqs[k].target, dir)
        case Err(e) => ResolveBlockedFails(v, k, dir, depth, e);
        case Ok(hop) =>
          ResolveBlockedStep(v, k, dir, depth, hop.0, hop.1);
          ResolveSound(v, hop.0, hop.1, depth - 1);
      }
    }
  }

  /**
   * The redirect flag is set exactly when the resolved key differs from the
   * requested one: a blocked step can never be the answer.
   */
  lemma RedirectIffMoved(v: View, k: Key, dir: int, depth: nat)
    requires Resolve(v, Some(k), dir, depth).result.Ok?
    ensures Resolve(v, Some(k), dir, depth).redirected <==> Resolve(v, Some(k), dir, depth).result.value != k
  {
    ResolveSound(v, Some(k), dir, depth);
  }

  /** Direction 0 on a blocked step without a target ends in Http404. */
  lemma StayWithoutTargetIsNotFound(v: View, k: Key, depth: nat)
    requires depth > 1 && k in v.prereqs && v.prereqs[k].Missing? && v.prereqs[k].target.None?
    ensures Resolve(v, Some(k), 0, depth).result == Err(NotFound)
    ensures Resolve(v, Some(k), 0, depth).redirected
  {
    ResolveBlockedStep(v, k, 0, depth, None, 0);
  }

  /**
   * Chained explicit targets resolve to a single final key: when each key of
   * `chain` is blocked with the next one as its target and the last is
   * satisfied, one call settles on the last key, flagging a redirect exactly
   * when it moved, and every key of the chain had its prereq() called.
   */
  lemma {:induction false} ChainedJumps(v: View, chain: seq<Key>, depth: nat)
    requires |chain| > 0 && depth >= |chain|
    requires forall i :: 0 <= i < |chain| - 1 ==>
      chain[i] in v.prereqs && v.prereqs[chain[i]].Missing? && v.prereqs[chain[i]].target == Some(chain[i + 1])
    requires chain[|chain| - 1] in v.prereqs && v.prereqs[chain[|chain| - 1]].Satisfied?
    ensures Resolve(v, Some(chain[0]), 0, depth).result == Ok(chain[|chain| - 1])
    ensures Resolve(v, Some(chain[0]), 0, depth).redirected <==> |chain| > 1
    ensures Resolve(v, Some(chain[0]), 0, depth).visited == chain
  {
    if |chain| > 1 {
      ChainedJumps(v, chain[1..], depth - 1);
    }
  }

  /**
   * Two chained jumps with messages: `a` points at `b`, `b` at `c`, and `c`
   * is open. One call lands on `c`, and the messages are forwarded in the
   * order the blocked steps were visited, each right after its prereq() call.
   */
  lemma JumpMessagesInOrder(v: View, a: Key, b: Key, c: Key, ma: string, mb: string, depth: nat)
    requires depth >= 3
    requires a in v.prereqs && v.prereqs[a] == Missing(Some(b), Some(ma))
    requires b in v.prereqs && v.prereqs[b] == Missing(Some(c), Some(mb))
    requires c in v.prereqs && v.prereqs[c].Satisfied?
    ensures Resolve(v, Some(a), 0, depth) == Resolution(Ok(c), true, [a, b, c],
      [PrereqCalled(a), Flash(ma), PrereqCalled(b), Flash(mb), PrereqCalled(c), PrereqSignal(c)])
  {
    ResolveSettledStep(v, c, 0, depth - 2);
    ResolveBlockedStep(v, b, 0, depth - 1, Some(c), 0);
    ResolveBlockedStep(v, a, 0, depth, Some(b), 0);
  }

  /** The registry is consistent: unique keys, dictionary built from them, every slot truthy. */
  ghost predicate Consistent(v: View) {
    |v.keys| > 0 && Unique(v.keys) && v.total == |v.keys|
    && forall i :: 0 <= i < |v.keys| ==> v.keys[i] in v.prereqs
  }

  /**
   * How many more calls a walk from position p in direction dir (+1 or -1)
   * makes before it reaches position s, bouncing once at the boundary.
   */
  function WalkDistance(p: nat, dir: int, s: nat, n: nat): nat
    requires p < n && s < n && (dir == 1 || dir == -1)
  {
    if dir == 1 then (if p <= s then s - p else (n - 1 - p) + 1 + (n - 1 - s))
    else (if p >= s then p - s else p + 1 + s)
  }

  /** Each call of a walk that has not reached s brings it one call closer. */
  lemma WalkDistanceStep(p: nat, dir: int, s: nat, n: nat)
    requires p < n && s < n && (dir == 1 || dir == -1) && p != s
    ensures var q := Clamp(p + dir, n);
      WalkDistance(q, if q == p then -dir else dir, s, n) + 1 == WalkDistance(p, dir, s, n)
  {
  }

  /** One step of the walk on a consistent registry: the next position, and the direction it keeps. */
  lemma WalkStep(v: View, p: nat, dir: int)
    requires Consistent(v) && p < |v.keys| && (dir == 1 || dir == -1)
    ensures Position(v.keys, v.keys[p]) == Ok(p)
    ensures 0 <= p + dir < |v.keys| ==> KeyAt(v.keys, v.total, p + dir) == Ok(v.keys[p + dir]) && v.keys[p + dir] != v.keys[p]
    ensures !(0 <= p + dir < |v.keys|) ==> KeyAt(v.keys, v.total, p + dir) == Ok(v.keys[p])
  {
    PositionOfUnique(v.keys, p);
    if 0 <= p + dir < |v.keys| {
      UniqueDistinct(v.keys, p, p + dir);
    }
  }

  /**
   * A walk with direction +1 or -1 settles on a satisfied step within
   * WalkDistance calls when there is one (position s): bouncing at the
   * boundaries brings it back into the sequence instead of looping.
   */
  lemma {:induction false} WalkReaches(v: View, p: nat, dir: int, s: nat, depth: nat)
    requires Consistent(v) && p < |v.keys| && s < |v.keys| && (dir == 1 || dir == -1)
    requires v.prereqs[v.keys[s]].Satisfied?
    requires depth > WalkDistance(p, dir, s, |v.keys|)
    ensures Resolve(v, Some(v.keys[p]), dir, depth).result.Ok?
    decreases depth
  {
    var k := v.keys[p];
    if v.prereqs[k].Missing? {
      ResolveWalkConsistent(v, p, dir, depth);
      WalkDistanceStep(p, dir, s, |v.keys|);
      var q := Clamp(p + dir, |v.keys|);
      var nd := if q == p then -dir else dir;
      WalkReaches(v, q, nd, s, depth - 1);
    } else {
      assert Resolve(v, Some(k), dir, depth).result == Ok(k);
    }
  }

  /** On a consistent registry the clamped lookup always succeeds. */
  lemma KeyAtConsistent(v: View, p: int)
    requires Consistent(v)
    ensures KeyAt(v.keys, v.total, p) == Ok(v.keys[Clamp(p, |v.keys|)])
  {
  }

  /** One level of a walk on a consistent registry: from a blocked position p to the clamped neighbour. */
  lemma ResolveWalkConsistent(v: View, p: nat, dir: int, depth: nat)
    requires Consistent(v) && p < |v.keys| && dir != 0 && depth > 0
    requires v.prereqs[v.keys[p]].Missing?
    ensures var q := Clamp(p + dir, |v.keys|);
      Resolve(v, Some(v.keys[p]), dir, depth).result
        == Resolve(v, Some(v.keys[q]), if q == p then -dir else dir, depth - 1).result
  {
    PositionOfUnique(v.keys, p);
    KeyAtConsistent(v, p + dir);
    UniqueDistinct(v.keys, p, Clamp(p + dir, |v.keys|));
    var q := Clamp(p + dir, |v.keys|);
    ResolveBlockedStep(v, v.keys[p], dir, depth, Some(v.keys[q]), if q == p then -dir else dir);
  }

  /**
   * A walk with a non-zero direction never settles when every step is
   * blocked: it oscillates until the recursion limit.
   */
  lemma {:induction false} AllBlockedNeverSettles(v: View, p: nat, dir: int, depth: nat)
    requires Consistent(v) && p < |v.keys| && dir != 0
    requires forall i :: 0 <= i < |v.keys| ==> v.prereqs[v.keys[i]].Missing?
    ensures Resolve(v, Some(v.keys[p]), dir, depth).result == Err(RecursionLimit)
    decreases depth
  {
    if depth > 0 {
      var q := Clamp(p + dir, |v.keys|);
      var nd := if q == p then -dir else dir;
      ResolveWalkConsistent(v, p, dir, depth);
      AllBlockedNeverSettles(v, q, nd, depth - 1);
    } else {
      assert Resolve(v, Some(v.keys[p]), dir, depth).result == Err(RecursionLimit);
    }
  }

  /**
   * Termination of the directional walk: on a consistent registry, a walk by
   * +1 or -1 given 2n calls settles iff some step's prereq is satisfied.
   */
  lemma WalkSettlesIff(v: View, p: nat, dir: int, depth: nat)
    requires Consistent(v) && p < |v.keys| && (dir == 1 || dir == -1)
    requires depth >= 2 * |v.keys|
    ensures Resolve(v, Some(v.keys[p]), dir, depth).result.Ok?
        <==> exists s :: 0 <= s < |v.keys| && v.prereqs[v.keys[s]].Satisfied?
  {
    if s :| 0 <= s < |v.keys| && v.prereqs[v.keys[s]].Satisfied? {
      WalkReaches(v, p, dir, s, depth);
    } else {
      AllBlockedNeverSettles(v, p, dir, depth);
    }
  }
}
