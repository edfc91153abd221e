/**
 * The ordered step registry: `steps_tuple`, the dictionary built from it, and
 * the position lookups of wizard/__init__.py:102-153.
 */
module Registry {
  import opened Wrappers
  import opened Steps

  /** One `(key, provider)` pair of `steps_tuple`. */
  datatype StepDef = StepDef(key: Key, provider: Slot)

  function Keys(defs: seq<StepDef>): (ks: seq<Key>)
    ensures |ks| == |defs| && forall i :: 0 <= i < |defs| ==> ks[i] == defs[i].key
  {
    seq(|defs|, i requires 0 <= i < |defs| => defs[i].key)
  }

  function KeySet(ks: seq<Key>): set<Key> {
    set k | k in ks
  }

  /** `ks[i]` under a name of its own, so that the pairwise quantifier of Unique fires only where a proof names it. */
  ghost function KeyOf(ks: seq<Key>, i: int): Key
    requires 0 <= i < |ks|
  {
    ks[i]
  }

  /** No key occurs twice. */
  ghost predicate Unique(ks: seq<Key>) {
    forall i, j :: 0 <= i < j < |ks| ==> KeyOf(ks, i) != KeyOf(ks, j)
  }

  lemma UniqueDistinct(ks: seq<Key>, i: nat, j: nat)
    requires Unique(ks) && i < |ks| && j < |ks|
    ensures ks[i] == ks[j] <==> i == j
  {
    if i < j {
      assert KeyOf(ks, i) != KeyOf(ks, j);
    } else if j < i {
      assert KeyOf(ks, j) != KeyOf(ks, i);
    }
  }

  /** `dict(steps_tuple)`: one entry per distinct key, the later pair overwriting the earlier. */
  function DictOf(defs: seq<StepDef>): (m: map<Key, Slot>)
    ensures m.Keys == KeySet(Keys(defs))
    decreases |defs|
  {
    if defs == [] then map[]
    else
      var init := defs[..|defs| - 1];
      var last := defs[|defs| - 1];
      assert Keys(defs) == Keys(init) + [last.key];
      DictOf(init)[last.key := last.provider]
  }

  /** Pair `i` is the last one in `defs` with its key. */
  ghost predicate IsLast(defs: seq<StepDef>, i: int) {
    0 <= i < |defs| && forall j :: i < j < |defs| ==> defs[j].key != defs[i].key
  }

  /** Each key of the dictionary holds the provider of the LAST pair with that key. */
  lemma {:induction false} DictOfLastWins(defs: seq<StepDef>, i: int)
    requires IsLast(defs, i)
    ensures defs[i].key in DictOf(defs) && DictOf(defs)[defs[i].key] == defs[i].provider
    decreases |defs|
  {
    var init := defs[..|defs| - 1];
    if i < |defs| - 1 {
      assert defs[|defs| - 1].key != defs[i].key;
      assert IsLast(init, i);
      DictOfLastWins(init, i);
    }
  }

  /** A sequence has at most as many distinct keys as entries, exactly as many when they are unique. */
  lemma {:induction false} DistinctCount(ks: seq<Key>)
    ensures |KeySet(ks)| <= |ks|
    ensures Unique(ks) ==> |KeySet(ks)| == |ks|
  {
    if ks != [] {
      var init := ks[..|ks| - 1];
      DistinctCount(init);
      assert KeySet(ks) == KeySet(init) + {ks[|ks| - 1]};
      if Unique(ks) {
        forall i, j | 0 <= i < j < |init| ensures KeyOf(init, i) != KeyOf(init, j) {
          UniqueDistinct(ks, i, j);
        }
        forall i | 0 <= i < |init| ensures init[i] != ks[|ks| - 1] {
          UniqueDistinct(ks, i, |ks| - 1);
        }
        assert ks[|ks| - 1] !in KeySet(init);
      }
    }
  }

  /** `total_steps()` of a freshly initialised wizard is the number of distinct keys. */
  lemma TotalStepsIsDistinctKeys(defs: seq<StepDef>)
    ensures |DictOf(defs)| == |KeySet(Keys(defs))| <= |defs|
    ensures Unique(Keys(defs)) ==> |DictOf(defs)| == |defs|
  {
    DistinctCount(Keys(defs));
  }

  /**
   * `get_step_position`: the index of the first pair whose key is `k`, and
   * ValueError when there is none.
   */
  function Position(ks: seq<Key>, k: Key): (r: Result<nat, Error>)
    ensures r.Ok? ==> r.value < |ks| && ks[r.value] == k && forall j :: 0 <= j < r.value ==> ks[j] != k
    ensures r.Err? <==> k !in ks
    ensures r.Err? ==> r.error == ValueError
  {
    PositionFrom(ks, k, 0)
  }

  /** The search of Position, from index `i` on. */
  function PositionFrom(ks: seq<Key>, k: Key, i: nat): (r: Result<nat, Error>)
    requires i <= |ks|
    ensures r.Ok? ==> i <= r.value < |ks| && ks[r.value] == k && forall j :: i <= j < r.value ==> ks[j] != k
    ensures r.Err? <==> forall j :: i <= j < |ks| ==> ks[j] != k
    ensures r.Err? ==> r.error == ValueError
    decreases |ks| - i
  {
    if i == |ks| then Err(ValueError)
    else if ks[i] == k then Ok(i)
    else PositionFrom(ks, k, i + 1)
  }

  /** With unique keys the position of the i-th key is i. */
  lemma PositionOfUnique(ks: seq<Key>, i: nat)
    requires Unique(ks) && i < |ks|
    ensures Position(ks, ks[i]) == Ok(i)
  {
    var r := Position(ks, ks[i]);
    UniqueDistinct(ks, r.value, i);
  }

  /**
   * `get_step_key_by_position`, where `total` is `total_steps()`, the size of
   * the step dictionary. Indexing a tuple that is too short raises IndexError.
   */
  function KeyAt(ks: seq<Key>, total: nat, p: int): Result<Key, Error> {
    if p < 0 then (if |ks| > 0 then Ok(ks[0]) else Err(IndexError))
    else if p < total then (if p < |ks| then Ok(ks[p]) else Err(IndexError))
    else (if |ks| > 0 then Ok(ks[|ks| - 1]) else Err(IndexError))
  }

  /**
   * `get_step_key_by_position(get_step_position(k) + dir)`: the key `dir`
   * places away from `k`, clamped; either lookup can raise.
   */
  function Neighbour(ks: seq<Key>, total: nat, k: Key, dir: int): Result<Key, Error> {
    match Position(ks, k)
    case Err(e) => Err(e)
    case Ok(pos) => KeyAt(ks, total, pos + dir)
  }

  function Clamp(p: int, n: nat): (c: nat)
    requires n > 0
    ensures c < n
  {
    if p < 0 then 0 else if p < n then p else n - 1
  }

  /**
   * On a non-empty registry whose dictionary was built from the tuple,
   * `get_step_key_by_position` never raises and always names a registered key.
   */
  lemma KeyAtNeverRaises(defs: seq<StepDef>, p: int)
    requires |defs| > 0
    ensures KeyAt(Keys(defs), |DictOf(defs)|, p).Ok?
    ensures KeyAt(Keys(defs), |DictOf(defs)|, p).value in Keys(defs)
  {
    TotalStepsIsDistinctKeys(defs);
    KeyAtWithinTuple(Keys(defs), |DictOf(defs)|, p);
  }

  /** With a total no larger than the tuple, the clamped lookup lands on an index of the tuple. */
  lemma KeyAtWithinTuple(ks: seq<Key>, total: nat, p: int)
    requires |ks| > 0 && total <= |ks|
    ensures KeyAt(ks, total, p).Ok? && KeyAt(ks, total, p).value in ks
  {
    var i := if p < 0 then 0 else if p < total then p else |ks| - 1;
    assert KeyAt(ks, total, p) == Ok(ks[i]);
  }

  /**
   * Clamping: below 0 gives the first key, from 0 to total-1 the key at that
   * position, and from total on the last key, whether or not keys repeat;
   * with unique keys the total is the tuple's length.
   */
  lemma KeyAtClamps(defs: seq<StepDef>, p: int)
    requires |defs| > 0
    ensures p < 0 ==> KeyAt(Keys(defs), |DictOf(defs)|, p) == Ok(defs[0].key)
    ensures 0 <= p < |DictOf(defs)| ==> p < |defs| && KeyAt(Keys(defs), |DictOf(defs)|, p) == Ok(defs[p].key)
    ensures p >= |DictOf(defs)| ==> KeyAt(Keys(defs), |DictOf(defs)|, p) == Ok(defs[|defs| - 1].key)
    ensures Unique(Keys(defs)) ==> KeyAt(Keys(defs), |DictOf(defs)|, p) == Ok(defs[Clamp(p, |defs|)].key)
  {
    TotalStepsIsDistinctKeys(defs);
    if Unique(Keys(defs)) {
      KeyAtFullTotal(Keys(defs), p);
    }
  }

  /** When the total is the tuple's length, the lookup is the tuple at the clamped index. */
  lemma KeyAtFullTotal(ks: seq<Key>, p: int)
    requires |ks| > 0
    ensures KeyAt(ks, |ks|, p) == Ok(ks[Clamp(p, |ks|)])
  {
  }

  /** Round trip: the key at the position of a key is that key, and its position is the clamped index. */
  lemma PositionKeyAtRoundTrip(ks: seq<Key>, k: Key, p: int)
    requires Unique(ks) && k in ks
    ensures Position(ks, k).Ok? && KeyAt(ks, |ks|, Position(ks, k).value) == Ok(k)
    ensures Position(ks, KeyAt(ks, |ks|, p).value) == Ok(Clamp(p, |ks|))
  {
    PositionOfUnique(ks, Clamp(p, |ks|));
  }
}
