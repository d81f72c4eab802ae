/**
 * The closed-case service of the case-management API (`historyService.js`): finished
 * processes from the workflow engine's history, whose variable instances are folded
 * into one object per case. The engine's answers are parameters.
 */
module HistoryService {
  import opened Wrappers
  import opened Json
  import opened CmsCommon

  /** The fields of a variable instance a formatted case variable keeps. */
  const VariableKeys: set<string> := {"type", "value", "valueInfo", "state", "createTime"}

  /** The fields of a finished process a listed case keeps. */
  const ProcessKeys: set<string> := {"id", "businessKey", "processDefinitionKey", "startTime", "endTime", "removalTime", "state"}

  /** The name a variable instance is stored under: its `name`, as a property key. */
  function VariableName(v: map<string, Json>): string
  {
    JsText(Prop(v, "name"))
  }

  /** One variable instance as formatted: an object of its kept fields. */
  function Formatted(v: map<string, Json>): (r: Json)
    ensures r.JObj? && r.fields.Keys <= VariableKeys
  {
    JObj(Pick(v, VariableKeys))
  }

  /** The object `formatCaseVars` builds from the first instances, each stored under its name. */
  function FormattedVars(vars: seq<map<string, Json>>): map<string, Json>
  {
    if |vars| == 0 then map[]
    else
      var last := vars[|vars| - 1];
      FormattedVars(vars[..|vars| - 1])[VariableName(last) := Formatted(last)]
  }

  /** `formatCaseVars`: one entry per variable name, later instances overwriting earlier ones. */
  method FormatCaseVars(caseVars: seq<map<string, Json>>) returns (obj: map<string, Json>)
    ensures obj == FormattedVars(caseVars)
  {
    obj := map[];
    for i := 0 to |caseVars|
      invariant obj == FormattedVars(caseVars[..i])
    {
      var v := caseVars[i];
      obj := obj[VariableName(v) := JObj(Pick(v, VariableKeys))];
      assert caseVars[..i + 1][..i] == caseVars[..i];
    }
    assert caseVars[..|caseVars|] == caseVars;
  }

  /** A name is a key of the formatted object exactly when some instance has it. */
  lemma {:induction false} FormattedVarsKeys(vars: seq<map<string, Json>>, n: string)
    ensures n in FormattedVars(vars) <==> exists i | 0 <= i < |vars| :: VariableName(vars[i]) == n
  {
    if |vars| > 0 {
      var init := vars[..|vars| - 1];
      FormattedVarsKeys(init, n);
      if n in FormattedVars(init) {
        var i :| 0 <= i < |init| && VariableName(init[i]) == n;
        assert vars[i] == init[i];
      }
      if exists i | 0 <= i < |vars| :: VariableName(vars[i]) == n {
        var i :| 0 <= i < |vars| && VariableName(vars[i]) == n;
        if i < |init| {
          assert init[i] == vars[i];
        }
      }
    }
  }

  /** A name holds the kept fields of the last instance with that name. */
  lemma {:induction false} FormattedVarsLast(vars: seq<map<string, Json>>, i: nat)
    requires i < |vars|
    requires forall j | i < j < |vars| :: VariableName(vars[j]) != VariableName(vars[i])
    ensures VariableName(vars[i]) in FormattedVars(vars)
    ensures FormattedVars(vars)[VariableName(vars[i])] == Formatted(vars[i])
  {
    var init := vars[..|vars| - 1];
    if i < |init| {
      assert init[i] == vars[i];
      assert forall j | i < j < |init| :: init[j] == vars[j];
      FormattedVarsLast(init, i);
    }
  }

  /** The engine's variable instances of a finished process. */
  type VariableInstances = map<string, Json> -> seq<map<string, Json>>

  /** The case of one finished process: its kept fields and its formatted variables. */
  function ProcessCase(process: map<string, Json>, variables: VariableInstances): Case
  {
    Case(Pick(process, ProcessKeys), FormattedVars(variables(process)))
  }

  function ProcessCases(processes: seq<map<string, Json>>, variables: VariableInstances): (r: seq<Case>)
    ensures |r| == |processes|
    ensures forall i | 0 <= i < |processes| :: r[i] == ProcessCase(processes[i], variables)
  {
    seq(|processes|, i requires 0 <= i < |processes| => ProcessCase(processes[i], variables))
  }

  /** A finished process is a use case exactly when one of its variable instances is named `uc_template`. */
  lemma ProcessIsUseCase(process: map<string, Json>, variables: VariableInstances)
    ensures IsUseCase(ProcessCase(process, variables)) <==>
      exists i | 0 <= i < |variables(process)| :: VariableName(variables(process)[i]) == "uc_template"
  {
    var instances := variables(process);
    FormattedVarsKeys(instances, "uc_template");
    FormattedIsObject(instances);
    assert ProcessCase(process, variables).caseVars == FormattedVars(instances);
  }

  /** Every formatted variable is an object, hence truthy. */
  lemma {:induction false} FormattedIsObject(vars: seq<map<string, Json>>)
    ensures forall n | n in FormattedVars(vars) :: FormattedVars(vars)[n].JObj?
  {
    if |vars| > 0 {
      FormattedIsObject(vars[..|vars| - 1]);
    }
  }

  /** `getAllCases`: the use-case cases among the finished processes, in listing order. */
  method GetAllCases(processes: seq<map<string, Json>>, variables: VariableInstances) returns (result: seq<Case>)
    ensures result == UseCases(ProcessCases(processes, variables))
  {
    ghost var all := ProcessCases(processes, variables);
    result := [];
    for i := 0 to |processes|
      invariant result == UseCases(all[..i])
    {
      var formattedVars := FormatCaseVars(variables(processes[i]));
      if Present(Prop(formattedVars, "uc_template")) {
        result := result + [Case(Pick(processes[i], ProcessKeys), formattedVars)];
      }
      assert all[..i + 1][..i] == all[..i];
    }
    assert all[..|processes|] == all;
  }

  /** `getCase`: the last use-case case among the finished processes of a business key, or undefined. */
  method GetCase(processes: seq<map<string, Json>>, variables: VariableInstances) returns (result: Option<Case>)
    ensures result == LastUseCase(ProcessCases(processes, variables))
  {
    ghost var all := ProcessCases(processes, variables);
    result := None;
    for i := 0 to |processes|
      invariant result == LastUseCase(all[..i])
    {
      var formattedVars := FormatCaseVars(variables(processes[i]));
      if Present(Prop(formattedVars, "uc_template")) {
        result := Some(Case(Pick(processes[i], ProcessKeys), formattedVars));
      }
      assert all[..i + 1][..i] == all[..i];
    }
    assert all[..|processes|] == all;
  }

  /**
   * `deleteCase`: the id of the finished process to delete (its uploads go with it), or
   * an error when the business key has no case.
   */
  function DeleteCase(businessKey: string, current: Option<Case>): (r: Result<string>)
    ensures current.None? <==> r.Err?
    ensures current.None? ==> r.error == "Task with businessKey:" + businessKey + " does not exist"
    ensures current.Some? ==> r.value == JsText(Prop(current.value.task, "id"))
  {
    if current.None? then Err("Task with businessKey:" + businessKey + " does not exist")
    else Ok(JsText(Prop(current.value.task, "id")))
  }
}
