/**
 * The open-case service of the case-management API (`caseService.js`). The workflow
 * engine it talks to is a parameter: the tasks it lists, the variables it reports for
 * a task and whether an update attempt fails.
 */
module CaseService {
  import opened Wrappers
  import opened Json
  import opened Strings
  import opened CmsCommon

  /** The analysis steps a case can be advanced through. */
  const AnalysisParams: seq<string> := ["match", "request", "response", "data-exchange", "offline-analysis"]

  /** The engine task fields a listed case keeps. */
  const TaskKeys: set<string> := {"id", "name", "created", "processInstanceId"}

  /** The engine's answer for a task's form variables. */
  type FormVariables = map<string, Json> -> map<string, Json>

  /** The case of one engine task: its kept fields and its form variables. */
  function TaskCase(task: map<string, Json>, formVariables: FormVariables): Case
  {
    Case(Pick(task, TaskKeys), formVariables(task))
  }

  function TaskCases(tasks: seq<map<string, Json>>, formVariables: FormVariables): (r: seq<Case>)
    ensures |r| == |tasks|
    ensures forall i | 0 <= i < |tasks| :: r[i] == TaskCase(tasks[i], formVariables)
  {
    seq(|tasks|, i requires 0 <= i < |tasks| => TaskCase(tasks[i], formVariables))
  }

  /** `getAllCases`: the use-case cases among the listed tasks, in task order. */
  method GetAllCases(tasks: seq<map<string, Json>>, formVariables: FormVariables) returns (result: seq<Case>)
    ensures result == UseCases(TaskCases(tasks, formVariables))
  {
    ghost var all := TaskCases(tasks, formVariables);
    result := [];
    for i := 0 to |tasks|
      invariant result == UseCases(all[..i])
    {
      var caseVars := formVariables(tasks[i]);
      if Present(Prop(caseVars, "uc_template")) {
        result := result + [Case(Pick(tasks[i], TaskKeys), caseVars)];
      }
      assert all[..i + 1][..i] == all[..i];
    }
    assert all[..|tasks|] == all;
  }

  /** `getCase`: the last use-case case among the tasks of a business key, or undefined. */
  method GetCase(tasks: seq<map<string, Json>>, formVariables: FormVariables) returns (result: Option<Case>)
    ensures result == LastUseCase(TaskCases(tasks, formVariables))
  {
    ghost var all := TaskCases(tasks, formVariables);
    result := None;
    for i := 0 to |tasks|
      invariant result == LastUseCase(all[..i])
    {
      var caseVars := formVariables(tasks[i]);
      if Present(Prop(caseVars, "uc_template")) {
        result := Some(Case(Pick(tasks[i], TaskKeys), caseVars));
      }
      assert all[..i + 1][..i] == all[..i];
    }
    assert all[..|tasks|] == all;
  }

  /** `getCase` returns the last case `getAllCases` lists for the same tasks. */
  lemma GetCaseIsLastListed(tasks: seq<map<string, Json>>, formVariables: FormVariables)
    ensures var listed := UseCases(TaskCases(tasks, formVariables));
      LastUseCase(TaskCases(tasks, formVariables)) == if |listed| == 0 then None else Some(listed[|listed| - 1])
  {
    LastUseCaseIsLastListed(TaskCases(tasks, formVariables));
  }

  // ---------------------------------------------------------------------------
  // Adding evidence.

  /** The name of a case's task; calling a string method on anything else raises. */
  function TaskName(c: Case): (r: Result<string>)
    ensures r.Ok? <==> "name" in c.task && c.task["name"].JStr?
    ensures r.Ok? ==> r.value == c.task["name"].s
  {
    if "name" in c.task && c.task["name"].JStr? then Ok(c.task["name"].s) else Err("TypeError")
  }

  /**
   * `caseVars.evidence.value` as `concat` appends it: an array's elements, any other
   * value as one element, and undefined as the null the engine then receives. Reading
   * `value` of an undefined or null evidence variable raises.
   */
  function PreviousEvidence(evidence: Option<Json>): (r: Result<seq<Json>>)
    ensures r.Err? <==> evidence.None? || evidence.value.JNull?
    ensures r.Ok? && evidence.value.JObj? && "value" in evidence.value.fields && evidence.value.fields["value"].JArr? ==>
      r.value == evidence.value.fields["value"].items
  {
    match evidence
    case None => Err("TypeError")
    case Some(JNull) => Err("TypeError")
    case Some(JObj(fields)) =>
      if "value" !in fields then Ok([JNull])
      else if fields["value"].JArr? then Ok(fields["value"].items)
      else Ok([fields["value"]])
    case Some(_) => Ok([JNull])
  }

  /** What `addCaseEvidence` asks of the engine for the case's task. */
  datatype EvidencePost =
    | SetVariables(taskId: string, evidence: seq<Json>)
    | Complete(taskId: string, evidence: seq<Json>)

  /**
   * `addCaseEvidence`: outside a "Step2" task the new evidence is put in front of the
   * case's previous evidence and only the variables are updated; in a "Step2" task the
   * task is completed with the new evidence. A missing case raises.
   */
  function AddCaseEvidence(current: Option<Case>, newEvidence: seq<Json>): (r: Result<EvidencePost>)
    ensures current.None? ==> r == Err("TypeError")
    ensures r.Ok? ==> current.Some? && TaskName(current.value).Ok?
    ensures r.Ok? ==> r.value.taskId == JsText(Prop(current.value.task, "id"))
    ensures r.Ok? ==> (r.value.Complete? <==> Contains(TaskName(current.value).value, "Step2"))
    ensures r.Ok? && r.value.Complete? ==> r.value.evidence == newEvidence
    ensures r.Ok? && r.value.SetVariables? ==> (
      && PreviousEvidence(Prop(current.value.caseVars, "evidence")).Ok?
      && r.value.evidence == newEvidence + PreviousEvidence(Prop(current.value.caseVars, "evidence")).value)
    ensures current.Some? && TaskName(current.value).Ok? && Contains(TaskName(current.value).value, "Step2") ==> r.Ok?
    ensures current.Some? && TaskName(current.value).Ok? && !Contains(TaskName(current.value).value, "Step2") ==>
      (r.Ok? <==> PreviousEvidence(Prop(current.value.caseVars, "evidence")).Ok?)
  {
    if current.None? then Err("TypeError")
    else
      var c := current.value;
      match TaskName(c)
      case Err(e) => Err(e)
      case Ok(name) =>
        var taskId := JsText(Prop(c.task, "id"));
        if !Contains(name, "Step2") then
          match PreviousEvidence(Prop(c.caseVars, "evidence"))
          case Err(e) => Err(e)
          case Ok(previous) => Ok(SetVariables(taskId, newEvidence + previous))
        else Ok(Complete(taskId, newEvidence))
  }

  /** Outside "Step2" the previous evidence is kept whole, after the new. */
  lemma AddedEvidenceKeepsPrevious(current: Option<Case>, newEvidence: seq<Json>)
    requires AddCaseEvidence(current, newEvidence).Ok? && AddCaseEvidence(current, newEvidence).value.SetVariables?
    ensures var e := AddCaseEvidence(current, newEvidence).value.evidence;
      && e[..|newEvidence|] == newEvidence
      && (forall f | f in newEvidence :: f in e)
      && forall k | 0 <= k < |e| - |newEvidence| :: e[|newEvidence| + k] == PreviousEvidence(Prop(current.value.caseVars, "evidence")).value[k]
  {
    var e := AddCaseEvidence(current, newEvidence).value.evidence;
    assert e[..|newEvidence|] == newEvidence;
  }

  // ---------------------------------------------------------------------------
  // Updating variables, with retries.

  const DefaultMaxRetries: nat := 5

  /** What `updateCase` answers once it has given up. */
  const MaxRetriesExceeded := "Cannot update case in camunda backend. Max retries exceeded"

  /**
   * How an `updateCase` call ends: updated by the attempt made with that retry number,
   * or given up after the failed attempt with that retry number. `fails(k)` says whether
   * the attempt made with retry number `k` raises (a missing case raises too, inside the
   * retried block).
   */
  datatype UpdateOutcome = Updated(attempt: nat) | GaveUp(attempt: nat)

  /** What an `updateCase` call resolves to: the engine's reply to the attempt that succeeded, or the give-up message. */
  function UpdateCaseAnswer(outcome: UpdateOutcome, reply: nat -> Json): Json
  {
    match outcome
    case Updated(attempt) => reply(attempt)
    case GaveUp(_) => JStr(MaxRetriesExceeded)
  }

  /**
   * The retry as written: the recursive call passes the incremented retry number but no
   * maxRetries, so every attempt after the first is bounded by the default 5.
   */
  function UpdateCaseAsWritten(fails: nat -> bool, retry: nat, maxRetries: nat): (r: UpdateOutcome)
    ensures r.attempt >= retry
    ensures r.Updated? ==> !fails(r.attempt)
    ensures r.GaveUp? ==> fails(r.attempt)
    ensures forall k | retry <= k < r.attempt :: fails(k)
    decreases if maxRetries == DefaultMaxRetries then 0 else 1, if retry <= DefaultMaxRetries then DefaultMaxRetries - retry else 0
  {
    if !fails(retry) then Updated(retry)
    else if retry >= maxRetries then GaveUp(retry)
    else UpdateCaseAsWritten(fails, retry + 1, DefaultMaxRetries)
  }

  /**
   * The retry as intended: maxRetries is passed on, so a call from retry 0 makes at
   * most maxRetries + 1 attempts and gives up only after all of them failed.
   */
  function UpdateCase(fails: nat -> bool, retry: nat, maxRetries: nat): (r: UpdateOutcome)
    ensures retry <= r.attempt <= if retry <= maxRetries then maxRetries else retry
    ensures r.Updated? ==> !fails(r.attempt)
    ensures r.GaveUp? ==> fails(r.attempt) && r.attempt == if retry <= maxRetries then maxRetries else retry
    ensures forall k | retry <= k < r.attempt :: fails(k)
    decreases if retry <= maxRetries then maxRetries - retry else 0
  {
    if !fails(retry) then Updated(retry)
    else if retry >= maxRetries then GaveUp(retry)
    else UpdateCase(fails, retry + 1, maxRetries)
  }

  /** Every caller relies on the default bound, and there the two agree. */
  lemma {:induction false} UpdateCaseDefaultAgrees(fails: nat -> bool, retry: nat)
    ensures UpdateCaseAsWritten(fails, retry, DefaultMaxRetries) == UpdateCase(fails, retry, DefaultMaxRetries)
    decreases if retry <= DefaultMaxRetries then DefaultMaxRetries - retry else 0
  {
    if fails(retry) && retry < DefaultMaxRetries {
      UpdateCaseDefaultAgrees(fails, retry + 1);
    }
  }

  /** A bound of 2 is honoured only by the first attempt: with every attempt failing, six are made instead of three. */
  lemma AsWrittenIgnoresMaxRetries(reply: nat -> Json)
    ensures UpdateCaseAsWritten(_ => true, 0, 2) == GaveUp(5)
    ensures UpdateCase(_ => true, 0, 2) == GaveUp(2)
    ensures UpdateCaseAnswer(UpdateCaseAsWritten(_ => true, 0, 2), reply) == JStr(MaxRetriesExceeded)
  {
    var always: nat -> bool := _ => true;
    assert UpdateCaseAsWritten(always, 5, 5) == GaveUp(5);
    assert UpdateCaseAsWritten(always, 4, 5) == GaveUp(5);
    assert UpdateCaseAsWritten(always, 3, 5) == GaveUp(5);
    assert UpdateCaseAsWritten(always, 2, 5) == GaveUp(5);
    assert UpdateCaseAsWritten(always, 1, 5) == GaveUp(5);
    assert UpdateCaseAsWritten(always, 0, 2) == GaveUp(5);
    assert UpdateCase(always, 2, 2) == GaveUp(2);
    assert UpdateCase(always, 1, 2) == GaveUp(2);
  }

  // ---------------------------------------------------------------------------
  // Step results.

  /** The `deepmerge` package's merge of two values. */
  type DeepMerge = (Json, Json) -> Json

  /**
   * The results recorded for one step, in `advanceCase`'s order of checks: a missing or
   * falsy entry is set, an array gets the results pushed, anything else is deep-merged.
   */
  function MergeStep(steps: map<string, Json>, step: string, results: Json, merge: DeepMerge): (r: map<string, Json>)
    ensures r.Keys == steps.Keys + {step}
    ensures forall k | k in steps && k != step :: r[k] == steps[k]
    ensures !Present(Prop(steps, step)) ==> r[step] == results
    ensures Present(Prop(steps, step)) && steps[step].JArr? ==> r[step] == JArr(steps[step].items + [results])
    ensures Present(Prop(steps, step)) && !steps[step].JArr? ==> r[step] == merge(steps[step], results)
  {
    if !Present(Prop(steps, step)) then steps[step := results]
    else if steps[step].JArr? then steps[step := JArr(steps[step].items + [results])]
    else steps[step := merge(steps[step], results)]
  }

  /** The same merge in `insertResults`' order of checks: array first, then truthy, then set. */
  function InsertStep(steps: map<string, Json>, step: string, data: Json, merge: DeepMerge): map<string, Json>
  {
    if step in steps && steps[step].JArr? then steps[step := JArr(steps[step].items + [data])]
    else if Present(Prop(steps, step)) then steps[step := merge(steps[step], data)]
    else steps[step := data]
  }

  /** Both orders of checks record the same results, since an array is always truthy. */
  lemma InsertStepIsMergeStep(steps: map<string, Json>, step: string, data: Json, merge: DeepMerge)
    ensures InsertStep(steps, step, data, merge) == MergeStep(steps, step, data, merge)
  {
  }

  /**
   * `caseVars.intermediate_results || { value: {} }`: the fields of the intermediate
   * results object. Its `value` must be an object for a step to be written into it.
   */
  function ResultsObject(caseVars: map<string, Json>): (r: Result<map<string, Json>>)
    ensures r.Ok? ==> "value" in r.value && r.value["value"].JObj?
    ensures !Present(Prop(caseVars, "intermediate_results")) ==> r == Ok(map["value" := JObj(map[])])
    ensures Present(Prop(caseVars, "intermediate_results")) && r.Ok? ==> JObj(r.value) == caseVars["intermediate_results"]
  {
    var ir := if Present(Prop(caseVars, "intermediate_results")) then caseVars["intermediate_results"]
              else JObj(map["value" := JObj(map[])]);
    if ir.JObj? && "value" in ir.fields && ir.fields["value"].JObj? then Ok(ir.fields) else Err("TypeError")
  }

  /** The intermediate results with one step merged in and the stale `type` removed. */
  function WithStep(ir: map<string, Json>, step: string, results: Json, merge: DeepMerge): (r: map<string, Json>)
    requires "value" in ir && ir["value"].JObj?
    ensures "type" !in r
    ensures "value" in r && r["value"] == JObj(MergeStep(ir["value"].fields, step, results, merge))
    ensures forall k | k in ir && k != "type" && k != "value" :: k in r && r[k] == ir[k]
  {
    ir["value" := JObj(MergeStep(ir["value"].fields, step, results, merge))] - {"type"}
  }

  /** The property key, and the text searched for, that a step makes: undefined becomes "undefined". */
  function StepKey(step: Option<string>): (r: string)
    ensures step.Some? ==> r == step.value
    ensures step.None? ==> r == "undefined"
  {
    if step.Some? then step.value else "undefined"
  }

  /** `caseVars.uc_template && caseVars.uc_template.value == template`. */
  predicate TemplateMatches(caseVars: map<string, Json>, template: string)
  {
    && Present(Prop(caseVars, "uc_template"))
    && caseVars["uc_template"].JObj?
    && Prop(caseVars["uc_template"].fields, "value") == Some(JStr(template))
  }

  /** What `advanceCase` resolves to: false, true after completing the task, or undefined. */
  datatype Advance = Mismatch | Completed(taskId: string, intermediateResults: map<string, Json>) | NotAtStep

  /**
   * `advanceCase` on the first task of the business key and the variables the engine
   * reports for it: a missing task raises; a template mismatch gives false; otherwise
   * the results are merged into the step and the task is completed with them exactly
   * when the lower-cased task name contains the step. When it is not, nothing is saved.
   */
  function AdvanceCase(businessKey: string, task: Option<map<string, Json>>, caseVars: map<string, Json>,
                       results: Json, template: string, step: Option<string>, merge: DeepMerge): (r: Result<Advance>)
    ensures task.None? ==> r == Err("Case with businessKey: " + businessKey + " does not exist")
    ensures task.Some? && !TemplateMatches(caseVars, template) ==> r == Ok(Mismatch)
    ensures r.Ok? && r.value.Completed? ==> (
      && task.Some? && TemplateMatches(caseVars, template)
      && "name" in task.value && task.value["name"].JStr?
      && Contains(Lower(task.value["name"].s), StepKey(step))
      && r.value.taskId == JsText(Prop(task.value, "id"))
      && ResultsObject(caseVars).Ok?
      && r.value.intermediateResults == WithStep(ResultsObject(caseVars).value, StepKey(step), results, merge))
    ensures r.Ok? && r.value.NotAtStep? ==> (
      && task.Some? && TemplateMatches(caseVars, template)
      && "name" in task.value && task.value["name"].JStr?
      && !Contains(Lower(task.value["name"].s), StepKey(step)))
    ensures (task.Some? && TemplateMatches(caseVars, template) && ResultsObject(caseVars).Ok?
             && "name" in task.value && task.value["name"].JStr?) ==> r.Ok? && !r.value.Mismatch?
  {
    if task.None? then Err("Case with businessKey: " + businessKey + " does not exist")
    else if !TemplateMatches(caseVars, template) then Ok(Mismatch)
    else
      match ResultsObject(caseVars)
      case Err(e) => Err(e)
      case Ok(ir) =>
        var updated := WithStep(ir, StepKey(step), results, merge);
        var t := task.value;
        if "name" in t && t["name"].JStr? then
          if Contains(Lower(t["name"].s), StepKey(step)) then Ok(Completed(JsText(Prop(t, "id")), updated))
          else Ok(NotAtStep)
        else Err("TypeError")
  }

  /**
   * `insertResults`: the variables handed to `updateCase` (the case's intermediate
   * results with the data merged into the step and `type` dropped), or undefined
   * without any update when the case does not exist.
   */
  function InsertResults(current: Option<Case>, data: Json, step: string, merge: DeepMerge): (r: Result<Option<map<string, Json>>>)
    ensures current.None? ==> r == Ok(None)
    ensures current.Some? ==> (r.Ok? <==> ResultsObject(current.value.caseVars).Ok?)
    ensures r.Ok? && r.value.Some? ==> r.value.value.Keys == {"intermediate_results"}
    ensures r.Ok? && r.value.Some? ==>
      r.value.value["intermediate_results"] == JObj(WithStep(ResultsObject(current.value.caseVars).value, step, data, merge))
  {
    if current.None? then Ok(None)
    else
      match ResultsObject(current.value.caseVars)
      case Err(e) => Err(e)
      case Ok(ir) =>
        var steps := ir["value"].fields;
        InsertStepIsMergeStep(steps, step, data, merge);
        var fields := (ir - {"type"})["value" := JObj(InsertStep(steps, step, data, merge))];
        assert fields == WithStep(ir, step, data, merge);
        Ok(Some(map["intermediate_results" := JObj(fields)]))
  }

  /**
   * Inserting results writes exactly the intermediate results that advancing with the
   * same step would have completed the task with.
   */
  lemma InsertResultsAgreesWithAdvance(businessKey: string, task: map<string, Json>, current: Case,
                                       results: Json, template: string, step: string, merge: DeepMerge)
    requires AdvanceCase(businessKey, Some(task), current.caseVars, results, template, Some(step), merge).Ok?
    requires AdvanceCase(businessKey, Some(task), current.caseVars, results, template, Some(step), merge).value.Completed?
    ensures InsertResults(Some(current), results, step, merge) ==
      Ok(Some(map["intermediate_results" := JObj(AdvanceCase(businessKey, Some(task), current.caseVars, results, template, Some(step), merge).value.intermediateResults)]))
  {
    var ir := ResultsObject(current.caseVars).value;
    InsertStepIsMergeStep(ir["value"].fields, step, results, merge);
    var a := (ir - {"type"})["value" := JObj(InsertStep(ir["value"].fields, step, results, merge))];
    var b := WithStep(ir, step, results, merge);
    assert a == b;
  }
}
