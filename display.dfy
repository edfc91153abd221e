/**
 * The data handed to a step's template (wizard/__init__.py:269-287):
 * display() or {}, then the common template args, then the wizard's own
 * entries `step_key`, `step` and `wizard`.
 */
module Display {
  import opened Steps

  datatype DataValue = Plain(v: Value) | StepObject(step: Instance) | WizardObject(wizard: object)

  type Data = map<string, DataValue>

  const Reserved: set<string> := {"step_key", "step", "wizard"}

  function PlainData(m: map<string, Value>): (d: Data)
    ensures d.Keys == m.Keys && forall x :: x in m ==> d[x] == Plain(m[x])
  {
    map x | x in m :: Plain(m[x])
  }

  /**
   * The template data for `step`: display()'s data, then the template args,
   * then the wizard's entries, each later source overwriting the earlier.
   */
  function WizardData(data: Data, targs: map<string, Value>, step: Key, inst: Instance, owner: object): Data {
    (data + PlainData(targs))["step_key" := Plain(Str(step))]["step" := StepObject(inst)]["wizard" := WizardObject(owner)]
  }

  /**
   * What the template sees: every key of the step's data, of the template
   * args and the three reserved keys; the wizard's entries win over the
   * template args, which win over what display() returned.
   */
  lemma WizardDataEntries(data: Data, targs: map<string, Value>, step: Key, inst: Instance, owner: object)
    ensures var r := WizardData(data, targs, step, inst, owner);
      && r.Keys == data.Keys + targs.Keys + Reserved
      && r["step_key"] == Plain(Str(step)) && r["step"] == StepObject(inst) && r["wizard"] == WizardObject(owner)
      && (forall x :: x in targs && x !in Reserved ==> r[x] == Plain(targs[x]))
      && (forall x :: x in data && x !in targs && x !in Reserved ==> r[x] == data[x])
  {
  }

  /** Copies the template args into `data` one key at a time; a template arg replaces an entry of the same key. */
  method MergeTemplateArgs(data: Data, targs: map<string, Value>) returns (r: Data)
    ensures r.Keys == data.Keys + targs.Keys
    ensures forall x :: x in targs ==> r[x] == Plain(targs[x])
    ensures forall x :: x in data && x !in targs ==> r[x] == data[x]
  {
    r := data;
    var todo := targs.Keys;
    while todo != {}
      invariant todo <= targs.Keys
      invariant r.Keys == data.Keys + (targs.Keys - todo)
      invariant forall x :: x in targs && x !in todo ==> r[x] == Plain(targs[x])
      invariant forall x :: x in data && x !in targs ==> r[x] == data[x]
      invariant forall x :: x in data && x in todo ==> r[x] == data[x]
      decreases todo
    {
      var x :| x in todo;
      r := r[x := Plain(targs[x])];
      todo := todo - {x};
    }
  }

  /** The merge loop builds the same data as the union the template data starts from. */
  lemma MergeIsUnion(data: Data, targs: map<string, Value>, r: Data)
    requires r.Keys == data.Keys + targs.Keys
    requires forall x :: x in targs ==> r[x] == Plain(targs[x])
    requires forall x :: x in data && x !in targs ==> r[x] == data[x]
    ensures r == data + PlainData(targs)
  {
  }
}
