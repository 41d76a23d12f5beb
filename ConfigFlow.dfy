/** The config flow: the integration allows a single config entry, created
    either from the user step or from configuration.yaml import. */
module ConfigFlow {
  import opened Common

  const Title: string := "Eglo Remote ZHA"
  const SingleInstanceAllowed: string := "single_instance_allowed"
  const UserStep: string := "user"

  /** What a flow step returns to Home Assistant. */
  datatype FlowResult =
    | Abort(reason: string)
    | CreateEntry(title: string, data: map<string, string>)
    | ShowForm(stepId: string)

  /** `async_step_user`, given the number of config entries that already
      exist and the submitted form, if any. */
  function StepUser(currentEntries: nat, userInput: Option<map<string, string>>): (r: FlowResult)
    ensures r.Abort? <==> currentEntries > 0
    ensures r.Abort? ==> r.reason == SingleInstanceAllowed
    ensures r.CreateEntry? <==> currentEntries == 0 && userInput.Some?
    ensures r.CreateEntry? ==> r.title == Title && r.data == map[]
    ensures r.ShowForm? <==> currentEntries == 0 && userInput.None?
    ensures r.ShowForm? ==> r.stepId == UserStep
  {
    if currentEntries > 0 then Abort(SingleInstanceAllowed)
    else if userInput.Some? then CreateEntry(Title, map[])
    else ShowForm(UserStep)
  }

  /** `async_step_import`: the user step with an empty submitted form; the
      imported configuration itself is not used. */
  function StepImport(currentEntries: nat, importData: map<string, string>): (r: FlowResult)
    ensures r.CreateEntry? <==> currentEntries == 0
    ensures r.Abort? <==> currentEntries > 0
    ensures !r.ShowForm?
  {
    StepUser(currentEntries, Some(map[]))
  }

  /** The outcome of an import does not depend on the imported data. */
  lemma ImportIgnoresData(currentEntries: nat, importData: map<string, string>, other: map<string, string>)
    ensures StepImport(currentEntries, importData) == StepImport(currentEntries, other)
  {
  }

  /** The number of entries after running the user step on each input in
      turn, counting each created entry. */
  function EntriesAfter(existing: nat, inputs: seq<Option<map<string, string>>>): nat
    decreases inputs
  {
    if inputs == [] then existing
    else
      var r := StepUser(existing, inputs[0]);
      EntriesAfter(if r.CreateEntry? then existing + 1 else existing, inputs[1..])
  }

  /** Running the user step on a sequence of inputs adds one entry exactly
      when none existed and some input was submitted, and never more than
      one: a second entry is always refused. */
  lemma {:induction false} SingleInstance(existing: nat, inputs: seq<Option<map<string, string>>>)
    ensures EntriesAfter(existing, inputs) ==
              if existing == 0 && exists k :: 0 <= k < |inputs| && inputs[k].Some? then 1 else existing
    decreases inputs
  {
    if inputs != [] {
      var r := StepUser(existing, inputs[0]);
      SingleInstance(if r.CreateEntry? then existing + 1 else existing, inputs[1..]);
      if existing == 0 && inputs[0].None? {
        assert (exists k :: 0 <= k < |inputs| && inputs[k].Some?) <==>
               (exists k :: 0 <= k < |inputs[1..]| && inputs[1..][k].Some?) by {
          forall k | 0 <= k < |inputs| && inputs[k].Some? ensures k > 0 && inputs[1..][k - 1].Some? {}
        }
      }
    }
  }
}
