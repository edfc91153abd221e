/**
 * The argument assembly of `get_url` (wizard/__init__.py:92-100, 194-202):
 * which arguments are handed to URL reversal for a step. The reversal itself
 * is not modelled.
 */
module Urls {
  import opened Steps

  /** The arguments given to URL reversal: keyword arguments or positional arguments. */
  datatype UrlTarget = ReverseKwargs(kwargs: map<string, Value>) | ReverseArgs(args: seq<Value>)

  /** `set_redirect_args` refuses a mix of positional and keyword arguments. */
  predicate RedirectArgsAllowed(args: seq<Value>, kwargs: map<string, Value>) {
    args == [] || kwargs == map[]
  }

  /** The step a target points at: its `step` keyword, or its last positional argument. */
  function StepOf(t: UrlTarget): Value
    requires t.ReverseKwargs? ==> "step" in t.kwargs
    requires t.ReverseArgs? ==> |t.args| > 0
  {
    match t
    case ReverseKwargs(kw) => kw["step"]
    case ReverseArgs(a) => a[|a| - 1]
  }

  /**
   * The reversal arguments for `step`: the stored keyword arguments with
   * `step` added, else the stored positional arguments followed by `step`,
   * else `step` as the only keyword argument.
   */
  function UrlFor(args: seq<Value>, kwargs: map<string, Value>, step: Key): (t: UrlTarget)
    ensures t.ReverseKwargs? ==> "step" in t.kwargs
    ensures t.ReverseArgs? ==> |t.args| > 0
    ensures StepOf(t) == Str(step)
    ensures t.ReverseKwargs? ==> forall x :: x in t.kwargs && x != "step" <==> x in kwargs && x != "step"
    ensures t.ReverseKwargs? ==> forall x :: x in kwargs && x != "step" ==> t.kwargs[x] == kwargs[x]
    ensures t.ReverseArgs? <==> kwargs == map[] && args != []
    ensures t.ReverseArgs? ==> t.args[..|t.args| - 1] == args
  {
    if kwargs != map[] then ReverseKwargs(kwargs["step" := Str(step)])
    else if args != [] then ReverseArgs(args + [Str(step)])
    else ReverseKwargs(map["step" := Str(step)])
  }

  /** `url_kwargs` after get_url: the keyword branch writes `step` into the stored dictionary. */
  function KwargsAfter(kwargs: map<string, Value>, step: Key): map<string, Value> {
    if kwargs != map[] then kwargs["step" := Str(step)] else kwargs
  }

  /** `url_args` after get_url as written: the positional branch rebinds it to `url_args + (step,)`. */
  function ArgsAfterAsWritten(args: seq<Value>, kwargs: map<string, Value>, step: Key): seq<Value> {
    if kwargs == map[] && args != [] then args + [Str(step)] else args
  }

  /**
   * With `url_args` left as configured, a second get_url of a cycle passes
   * the same arguments as a first one would, in every branch: links built
   * one after another do not interfere.
   */
  lemma SecondUrlIndependentOfFirst(args: seq<Value>, kwargs: map<string, Value>, s1: Key, s2: Key)
    ensures UrlFor(args, KwargsAfter(kwargs, s1), s2) == UrlFor(args, kwargs, s2)
  {
    if kwargs != map[] {
      assert KwargsAfter(kwargs, s1)["step" := Str(s2)] == kwargs["step" := Str(s2)];
    }
  }

  /**
   * As written, the positional branch accumulates: the second get_url of a
   * cycle passes the first step as well, so reversal gets one argument too
   * many instead of the configured arguments and the new step.
   */
  lemma AsWrittenSecondUrlCarriesFirstStep(args: seq<Value>, s1: Key, s2: Key)
    requires args != []
    ensures UrlFor(ArgsAfterAsWritten(args, map[], s1), map[], s2) == ReverseArgs(args + [Str(s1), Str(s2)])
    ensures UrlFor(ArgsAfterAsWritten(args, map[], s1), map[], s2) != UrlFor(args, map[], s2)
  {
    assert |args + [Str(s1), Str(s2)]| != |args + [Str(s2)]|;
  }

  /** Both argument stores satisfy set_redirect_args' rule after any get_url, as written or corrected. */
  lemma GetUrlKeepsArgsUnmixed(args: seq<Value>, kwargs: map<string, Value>, step: Key)
    requires RedirectArgsAllowed(args, kwargs)
    ensures RedirectArgsAllowed(args, KwargsAfter(kwargs, step))
    ensures RedirectArgsAllowed(ArgsAfterAsWritten(args, kwargs, step), KwargsAfter(kwargs, step))
  {
  }
}
