/**
 * App.tsx: the batch views. A view holds a list of tasks, each a script with
 * its own character definitions; generating runs one breakdown per task whose
 * script is not blank and gathers the outcomes per task (individual mode) or
 * as one renumbered scene list (combined mode). The remote outcomes are given,
 * one per active task, in task order.
 */
module Batch {
  import opened Wrappers
  import opened Strings
  import opened Seqs
  import opened Types

  datatype BatchTask = BatchTask(id: int, script: string, characterDefinitions: string)

  /** The two task fields the editor changes. */
  datatype TaskField = Script | CharacterDefinitions

  datatype BatchMode = Individual | Combined

  /** One row of the individual-mode results. */
  datatype TaskResult = TaskResult(taskId: int, scenes: seq<Scene>, error: Option<string>)

  /** The combined-mode result. */
  datatype CombinedResult = CombinedResult(scenes: seq<Scene>, error: Option<string>)

  /** The per-task arguments of a breakdown call that differ between tasks. */
  datatype TaskRequest = TaskRequest(script: string, characterDefinitions: string)

  /** A remote outcome: the scenes, or the value the call rejected with. */
  type Outcome = Result<seq<Scene>, Thrown>

  /** The messages the batch handler reads through `t`. */
  datatype BatchMessages = BatchMessages(apiKeyMissing: string, unknown: string, customRulesRequired: string)

  // ---- The task list ----

  /** `{ ...task, [field]: value }`. */
  function WithField(task: BatchTask, field: TaskField, value: string): BatchTask {
    match field
    case Script => task.(script := value)
    case CharacterDefinitions => task.(characterDefinitions := value)
  }

  /** `handleTaskFieldChange`: set the field on every task with the id. */
  function UpdateTaskField(tasks: seq<BatchTask>, id: int, field: TaskField, value: string): (r: seq<BatchTask>)
    ensures |r| == |tasks|
  {
    seq(|tasks|, i requires 0 <= i < |tasks| => if tasks[i].id == id then WithField(tasks[i], field, value) else tasks[i])
  }

  /** A field change alters the named field of the matching tasks and nothing else. */
  lemma UpdateTaskFieldChangesOnlyField(tasks: seq<BatchTask>, id: int, field: TaskField, value: string, i: nat)
    requires i < |tasks|
    ensures var r := UpdateTaskField(tasks, id, field, value);
      && r[i].id == tasks[i].id
      && (tasks[i].id != id ==> r[i] == tasks[i])
      && (tasks[i].id == id && field == Script ==>
            r[i].script == value && r[i].characterDefinitions == tasks[i].characterDefinitions)
      && (tasks[i].id == id && field == CharacterDefinitions ==>
            r[i].characterDefinitions == value && r[i].script == tasks[i].script)
  {
  }

  /** `addTask`: one empty task at the end, with the time as its id. */
  function AddTask(tasks: seq<BatchTask>, now: int): (r: seq<BatchTask>)
    ensures |r| == |tasks| + 1 && r[..|tasks|] == tasks
    ensures r[|tasks|] == BatchTask(now, "", "")
  {
    tasks + [BatchTask(now, "", "")]
  }

  predicate HasId(id: int, task: BatchTask) {
    task.id == id
  }

  predicate LacksId(id: int, task: BatchTask) {
    task.id != id
  }

  /** `removeTask`: drop every task with the id. */
  function RemoveTask(tasks: seq<BatchTask>, id: int): (r: seq<BatchTask>)
    ensures forall i :: 0 <= i < |r| ==> r[i].id != id
    ensures forall i :: 0 <= i < |tasks| && tasks[i].id != id ==> tasks[i] in r
  {
    Filter(tasks, t => LacksId(id, t))
  }

  /** Removing keeps the other tasks in order, and removes nothing when no task has the id. */
  lemma RemoveTaskKeepsOrder(tasks: seq<BatchTask>, id: int)
    ensures IsSubsequence(RemoveTask(tasks, id), tasks)
    ensures (forall i :: 0 <= i < |tasks| ==> tasks[i].id != id) <==> RemoveTask(tasks, id) == tasks
  {
    FilterIsSubsequence(tasks, t => LacksId(id, t));
    FilterKeepsAllIff(tasks, t => LacksId(id, t));
  }

  /** The three empty tasks a view starts with. */
  const InitialTasks: seq<BatchTask> := [BatchTask(1, "", ""), BatchTask(2, "", ""), BatchTask(3, "", "")]

  // ---- Generating ----

  predicate IsActive(task: BatchTask) {
    Trim(task.script) != ""
  }

  /** The tasks whose script is not blank after trimming, in order. */
  function ActiveTasks(tasks: seq<BatchTask>): seq<BatchTask> {
    Filter(tasks, IsActive)
  }

  /** The active tasks are the tasks with a script that is not blank, every one of them, in order. */
  lemma ActiveTasksAreNonBlank(tasks: seq<BatchTask>)
    ensures var active := ActiveTasks(tasks);
      && (forall i :: 0 <= i < |active| ==> !IsBlank(active[i].script) && active[i] in tasks)
      && (forall i :: 0 <= i < |tasks| && !IsBlank(tasks[i].script) ==> tasks[i] in active)
      && IsSubsequence(active, tasks)
  {
    var active := ActiveTasks(tasks);
    forall i | 0 <= i < |active| ensures !IsBlank(active[i].script) {
      TrimNonEmptyIffNotBlank(active[i].script);
    }
    forall i | 0 <= i < |tasks| && !IsBlank(tasks[i].script) ensures IsActive(tasks[i]) {
      TrimNonEmptyIffNotBlank(tasks[i].script);
    }
    FilterIsSubsequence(tasks, IsActive);
  }

  /** The character definitions a task is generated with: its own in individual mode, the shared field in combined mode. */
  function Requests(active: seq<BatchTask>, mode: BatchMode, shared: string): (requests: seq<TaskRequest>)
    ensures |requests| == |active|
    ensures forall i :: 0 <= i < |active| ==> requests[i].script == active[i].script
    ensures forall i :: 0 <= i < |active| ==>
      requests[i].characterDefinitions == if mode == Individual then active[i].characterDefinitions else shared
  {
    seq(|active|, i requires 0 <= i < |active| =>
      TaskRequest(active[i].script, if mode == Individual then active[i].characterDefinitions else shared))
  }

  /** `(result.reason as Error).message || t('errorUnknown')`. */
  function ReasonMessage(reason: Thrown, unknown: string): (message: string)
    ensures reason.ErrorWith? && reason.message != "" ==> message == reason.message
    ensures !(reason.ErrorWith? && reason.message != "") ==> message == unknown
  {
    if reason.ErrorWith? && reason.message != "" then reason.message else unknown
  }

  /** Individual mode: one row per active task, in order, with its id. */
  function IndividualResults(active: seq<BatchTask>, outcomes: seq<Outcome>, unknown: string): (rows: seq<TaskResult>)
    requires |outcomes| == |active|
    ensures |rows| == |active|
    ensures forall i :: 0 <= i < |rows| ==> rows[i].taskId == active[i].id
    ensures forall i :: 0 <= i < |rows| ==>
      (rows[i].error.None? <==> outcomes[i].Success?)
    ensures forall i :: 0 <= i < |rows| && outcomes[i].Success? ==> rows[i].scenes == outcomes[i].value
    ensures forall i :: 0 <= i < |rows| && outcomes[i].Failure? ==>
      rows[i].scenes == [] && rows[i].error == Some(ReasonMessage(outcomes[i].error, unknown))
  {
    seq(|active|, i requires 0 <= i < |active| =>
      match outcomes[i]
      case Success(scenes) => TaskResult(active[i].id, scenes, None)
      case Failure(reason) => TaskResult(active[i].id, [], Some(ReasonMessage(reason, unknown))))
  }

  /** The rows shown when no API key is set: every task, active or not, with the missing-key error. */
  function MissingKeyResults(tasks: seq<BatchTask>, message: string): (rows: seq<TaskResult>)
    ensures |rows| == |tasks|
    ensures forall i :: 0 <= i < |rows| ==> rows[i] == TaskResult(tasks[i].id, [], Some(message))
  {
    seq(|tasks|, i requires 0 <= i < |tasks| => TaskResult(tasks[i].id, [], Some(message)))
  }

  /** The first rejection in task order. */
  function FirstFailure(outcomes: seq<Outcome>): (first: Option<Thrown>)
    ensures first.None? <==> forall i :: 0 <= i < |outcomes| ==> outcomes[i].Success?
    ensures first.Some? ==> exists i :: 0 <= i < |outcomes| && outcomes[i] == Failure(first.value)
  {
    if outcomes == [] then None
    else if outcomes[0].Failure? then Some(outcomes[0].error)
    else
      var rest := FirstFailure(outcomes[1..]);
      assert rest.Some? ==> exists i :: 0 <= i < |outcomes[1..]| && outcomes[1..][i] == Failure(rest.value);
      rest
  }

  /** The scene lists of outcomes that all succeeded. */
  function SceneLists(outcomes: seq<Outcome>): (lists: seq<seq<Scene>>)
    requires forall i :: 0 <= i < |outcomes| ==> outcomes[i].Success?
    ensures |lists| == |outcomes| && forall i :: 0 <= i < |outcomes| ==> lists[i] == outcomes[i].value
  {
    seq(|outcomes|, i requires 0 <= i < |outcomes| => outcomes[i].value)
  }

  /** The combined-mode error: an `Error`'s message as it is, anything else the unknown message. */
  function CombinedErrorMessage(reason: Thrown, unknown: string): string {
    match reason
    case ErrorWith(message) => message
    case NonError => unknown
  }

  /** The sequential renumbering: scene `i` gets number `i + 1`, every other field kept. */
  function Renumbered(source: seq<Scene>): (renumbered: seq<Scene>)
    ensures |renumbered| == |source|
  {
    seq(|source|, i requires 0 <= i < |source| => source[i].(sceneNumber := (i + 1) as real))
  }

  /** `resultsArrays.flat().map(scene => ({ ...scene, sceneNumber: sceneCounter++ }))` with the counter from 1. */
  method RenumberScenes(scenes: seq<Scene>) returns (renumbered: seq<Scene>)
    ensures renumbered == Renumbered(scenes)
  {
    var sceneCounter := 1;
    renumbered := [];
    for i := 0 to |scenes|
      invariant sceneCounter == i + 1
      invariant |renumbered| == i
      invariant forall k :: 0 <= k < i ==> renumbered[k] == scenes[k].(sceneNumber := (k + 1) as real)
    {
      renumbered := renumbered + [scenes[i].(sceneNumber := sceneCounter as real)];
      sceneCounter := sceneCounter + 1;
    }
  }

  /** The renumbered list numbers its scenes 1 to n in increasing order and keeps their other fields. */
  lemma RenumberedProperties(source: seq<Scene>)
    ensures var renumbered := Renumbered(source);
      && (forall i :: 0 <= i < |renumbered| ==> renumbered[i].sceneNumber == (i + 1) as real)
      && (forall i :: 0 <= i < |renumbered| ==>
            && renumbered[i].originalText == source[i].originalText
            && renumbered[i].translatedText == source[i].translatedText
            && renumbered[i].visualDescription == source[i].visualDescription
            && renumbered[i].imagePrompt == source[i].imagePrompt)
      && (forall i, j :: 0 <= i < j < |renumbered| ==> renumbered[i].sceneNumber < renumbered[j].sceneNumber)
  {
  }

  /** What a batch run leaves: the individual rows, the combined result and the calls made. */
  datatype BatchOutcome = BatchOutcome(individual: seq<TaskResult>, combined: Option<CombinedResult>, requests: seq<TaskRequest>)

  /**
   * The aggregation after the calls: no calls and no results when no task is
   * active; otherwise one call per active task, and either the individual
   * rows or the combined result, which is the first failure's message or
   * all scenes renumbered from 1.
   */
  function BatchRun(active: seq<BatchTask>, mode: BatchMode, shared: string, unknown: string, outcomes: seq<Outcome>): BatchOutcome
    requires |outcomes| == |active|
  {
    if active == [] then BatchOutcome([], None, [])
    else
      var requests := Requests(active, mode, shared);
      if mode == Individual then BatchOutcome(IndividualResults(active, outcomes, unknown), None, requests)
      else
        match FirstFailure(outcomes)
        case Some(reason) =>
          BatchOutcome([], Some(CombinedResult([], Some(CombinedErrorMessage(reason, unknown)))), requests)
        case None =>
          BatchOutcome([], Some(CombinedResult(Renumbered(Flatten(SceneLists(outcomes))), None)), requests)
  }

  /** The run after the calls, with the renumbering loop. */
  method RunBatch(active: seq<BatchTask>, mode: BatchMode, shared: string, unknown: string, outcomes: seq<Outcome>)
    returns (run: BatchOutcome)
    requires |outcomes| == |active|
    ensures run == BatchRun(active, mode, shared, unknown, outcomes)
  {
    if active == [] {
      return BatchOutcome([], None, []);
    }
    var requests := Requests(active, mode, shared);
    if mode == Individual {
      run := BatchOutcome(IndividualResults(active, outcomes, unknown), None, requests);
    } else {
      var failure := FirstFailure(outcomes);
      if failure.Some? {
        run := BatchOutcome([], Some(CombinedResult([], Some(CombinedErrorMessage(failure.value, unknown)))), requests);
      } else {
        var scenes := RenumberScenes(Flatten(SceneLists(outcomes)));
        run := BatchOutcome([], Some(CombinedResult(scenes, None)), requests);
      }
    }
  }

  /** A run over no active tasks makes no calls and leaves both results empty. */
  lemma NoActiveTasksNoRun(mode: BatchMode, shared: string, unknown: string)
    ensures BatchRun([], mode, shared, unknown, []) == BatchOutcome([], None, [])
  {
  }

  /**
   * Individual mode: one call per active task with the task's own script and
   * character definitions, and one row per task in task order: its scenes,
   * or no scenes and the rejection's message (the unknown-error text when
   * that is empty or the value is not an `Error`).
   */
  lemma IndividualRunResults(active: seq<BatchTask>, shared: string, unknown: string, outcomes: seq<Outcome>)
    requires |outcomes| == |active| && active != []
    ensures var run := BatchRun(active, Individual, shared, unknown, outcomes);
      && run.combined == None
      && |run.requests| == |run.individual| == |active|
      && (forall i :: 0 <= i < |active| ==>
            run.requests[i] == TaskRequest(active[i].script, active[i].characterDefinitions))
      && (forall i :: 0 <= i < |active| ==> run.individual[i].taskId == active[i].id)
      && (forall i :: 0 <= i < |active| && outcomes[i].Success? ==>
            run.individual[i].scenes == outcomes[i].value && run.individual[i].error == None)
      && (forall i :: 0 <= i < |active| && outcomes[i].Failure? ==>
            run.individual[i].scenes == [] && run.individual[i].error == Some(ReasonMessage(outcomes[i].error, unknown)))
  {
  }

  /**
   * Combined mode: one call per active task with the shared character
   * definitions. All calls succeeding gives every scene of every task, in task
   * order, numbered 1 to n; any failure gives no scenes and an error taken
   * from a failed call.
   */
  lemma CombinedRunResults(active: seq<BatchTask>, shared: string, unknown: string, outcomes: seq<Outcome>)
    requires |outcomes| == |active| && active != []
    ensures var run := BatchRun(active, Combined, shared, unknown, outcomes);
      && run.individual == [] && run.combined.Some?
      && (forall i :: 0 <= i < |active| ==> run.requests[i] == TaskRequest(active[i].script, shared))
      && (run.combined.value.error.None? <==> forall i :: 0 <= i < |outcomes| ==> outcomes[i].Success?)
      && (run.combined.value.error.Some? ==>
            && run.combined.value.scenes == []
            && exists i :: 0 <= i < |outcomes| && outcomes[i].Failure?
                 && run.combined.value.error.value == CombinedErrorMessage(outcomes[i].error, unknown))
      && (run.combined.value.error.None? ==>
            && run.combined.value.scenes == Renumbered(Flatten(SceneLists(outcomes)))
            && |run.combined.value.scenes| == TotalCount(SceneLists(outcomes)))
  {
    var first := FirstFailure(outcomes);
    if first.Some? {
      var i :| 0 <= i < |outcomes| && outcomes[i] == Failure(first.value);
      assert outcomes[i].Failure? && CombinedErrorMessage(outcomes[i].error, unknown) == CombinedErrorMessage(first.value, unknown);
    }
  }

  /** The tasks, mode, shared character definitions and results of BatchView. */
  class BatchView {
    var tasks: seq<BatchTask>
    var batchMode: BatchMode
    var characterDefinitions: string
    var individualResults: seq<TaskResult>
    var combinedResult: Option<CombinedResult>

    /** Three empty tasks, individual mode, no results; the shared definitions start as the placeholder. */
    constructor(placeholderCharacters: string)
      ensures tasks == InitialTasks && batchMode == Individual && characterDefinitions == placeholderCharacters
      ensures individualResults == [] && combinedResult == None
    {
      tasks := InitialTasks;
      batchMode := Individual;
      characterDefinitions := placeholderCharacters;
      individualResults := [];
      combinedResult := None;
    }

    method ChangeTaskField(id: int, field: TaskField, value: string)
      modifies this
      ensures tasks == UpdateTaskField(old(tasks), id, field, value)
      ensures batchMode == old(batchMode) && characterDefinitions == old(characterDefinitions)
      ensures individualResults == old(individualResults) && combinedResult == old(combinedResult)
    {
      tasks := UpdateTaskField(tasks, id, field, value);
    }

    method AddNewTask(now: int)
      modifies this
      ensures tasks == AddTask(old(tasks), now)
      ensures batchMode == old(batchMode) && characterDefinitions == old(characterDefinitions)
      ensures individualResults == old(individualResults) && combinedResult == old(combinedResult)
    {
      tasks := AddTask(tasks, now);
    }

    method RemoveTaskById(id: int)
      modifies this
      ensures tasks == RemoveTask(old(tasks), id)
      ensures batchMode == old(batchMode) && characterDefinitions == old(characterDefinitions)
      ensures individualResults == old(individualResults) && combinedResult == old(combinedResult)
    {
      tasks := RemoveTask(tasks, id);
    }

    /** The missing-key report: on every task in individual mode, on the combined result otherwise. */
    method ReportMissingKey(message: string)
      modifies this
      ensures tasks == old(tasks) && batchMode == old(batchMode)
      ensures characterDefinitions == old(characterDefinitions)
      ensures batchMode == Individual ==>
        individualResults == MissingKeyResults(tasks, message) && combinedResult == old(combinedResult)
      ensures batchMode == Combined ==>
        combinedResult == Some(CombinedResult([], Some(message))) && individualResults == old(individualResults)
    {
      if batchMode == Individual {
        individualResults := MissingKeyResults(tasks, message);
      } else {
        combinedResult := Some(CombinedResult([], Some(message)));
      }
    }

    /** Past the checks: the results are set from the run over the active tasks. */
    method RunActiveTasks(unknown: string, outcomes: seq<Outcome>) returns (requests: seq<TaskRequest>)
      requires |outcomes| == |ActiveTasks(tasks)|
      modifies this
      ensures tasks == old(tasks) && batchMode == old(batchMode)
      ensures characterDefinitions == old(characterDefinitions)
      ensures BatchOutcome(individualResults, combinedResult, requests)
        == BatchRun(ActiveTasks(tasks), batchMode, characterDefinitions, unknown, outcomes)
    {
      var run := RunBatch(ActiveTasks(tasks), batchMode, characterDefinitions, unknown, outcomes);
      individualResults, combinedResult, requests := run.individual, run.combined, run.requests;
    }

    /**
     * `handleGenerateBatch` once every call has settled. Without keys every
     * task gets the missing-key error (or the combined result does); without a
     * selected theme, ratio and style nothing happens; otherwise both results
     * are cleared and the outcomes gathered. `requests` lists the calls made.
     */
    method GenerateBatch(apiKeys: seq<string>, optionsSelected: bool, msgs: BatchMessages, outcomes: seq<Outcome>)
      returns (requests: seq<TaskRequest>)
      requires |outcomes| == |ActiveTasks(tasks)|
      modifies this
      ensures tasks == old(tasks) && batchMode == old(batchMode) && characterDefinitions == old(characterDefinitions)
      ensures apiKeys == [] ==> (
        && requests == []
        && (batchMode == Individual ==>
              individualResults == MissingKeyResults(tasks, msgs.apiKeyMissing) && combinedResult == old(combinedResult))
        && (batchMode == Combined ==>
              combinedResult == Some(CombinedResult([], Some(msgs.apiKeyMissing))) && individualResults == old(individualResults)))
      ensures apiKeys != [] && !optionsSelected ==>
        requests == [] && individualResults == old(individualResults) && combinedResult == old(combinedResult)
      ensures apiKeys != [] && optionsSelected ==>
        BatchOutcome(individualResults, combinedResult, requests)
        == BatchRun(ActiveTasks(tasks), batchMode, characterDefinitions, msgs.unknown, outcomes)
    {
      requests := [];
      if apiKeys == [] {
        ReportMissingKey(msgs.apiKeyMissing);
        return;
      }
      if !optionsSelected {
        return;
      }
      requests := RunActiveTasks(msgs.unknown, outcomes);
    }
  }

  /**
   * CustomRulesView: the same task list and aggregation, with a rules text
   * that must not be blank and a view-level error.
   */
  class CustomRulesView {
    var tasks: seq<BatchTask>
    var batchMode: BatchMode
    var customRules: string
    var characterDefinitions: string
    var error: Option<string>
    var individualResults: seq<TaskResult>
    var combinedResult: Option<CombinedResult>

    constructor(placeholderCharacters: string)
      ensures tasks == InitialTasks && batchMode == Individual && customRules == ""
      ensures characterDefinitions == placeholderCharacters && error == None
      ensures individualResults == [] && combinedResult == None
    {
      tasks := InitialTasks;
      batchMode := Individual;
      customRules := "";
      characterDefinitions := placeholderCharacters;
      error := None;
      individualResults := [];
      combinedResult := None;
    }

    method ChangeTaskField(id: int, field: TaskField, value: string)
      modifies this
      ensures tasks == UpdateTaskField(old(tasks), id, field, value)
      ensures batchMode == old(batchMode) && customRules == old(customRules)
      ensures characterDefinitions == old(characterDefinitions) && error == old(error)
      ensures individualResults == old(individualResults) && combinedResult == old(combinedResult)
    {
      tasks := UpdateTaskField(tasks, id, field, value);
    }

    method AddNewTask(now: int)
      modifies this
      ensures tasks == AddTask(old(tasks), now)
      ensures batchMode == old(batchMode) && customRules == old(customRules)
      ensures characterDefinitions == old(characterDefinitions) && error == old(error)
      ensures individualResults == old(individualResults) && combinedResult == old(combinedResult)
    {
      tasks := AddTask(tasks, now);
    }

    method RemoveTaskById(id: int)
      modifies this
      ensures tasks == RemoveTask(old(tasks), id)
      ensures batchMode == old(batchMode) && customRules == old(customRules)
      ensures characterDefinitions == old(characterDefinitions) && error == old(error)
      ensures individualResults == old(individualResults) && combinedResult == old(combinedResult)
    {
      tasks := RemoveTask(tasks, id);
    }

    /** The missing-key report: on every task in individual mode, on the combined result otherwise. */
    method ReportMissingKey(message: string)
      modifies this
      ensures tasks == old(tasks) && batchMode == old(batchMode)
      ensures characterDefinitions == old(characterDefinitions) && customRules == old(customRules) && error == old(error)
      ensures batchMode == Individual ==>
        individualResults == MissingKeyResults(tasks, message) && combinedResult == old(combinedResult)
      ensures batchMode == Combined ==>
        combinedResult == Some(CombinedResult([], Some(message))) && individualResults == old(individualResults)
    {
      if batchMode == Individual {
        individualResults := MissingKeyResults(tasks, message);
      } else {
        combinedResult := Some(CombinedResult([], Some(message)));
      }
    }

    /** Past the checks: the results are set from the run over the active tasks. */
    method RunActiveTasks(unknown: string, outcomes: seq<Outcome>) returns (requests: seq<TaskRequest>)
      requires |outcomes| == |ActiveTasks(tasks)|
      modifies this
      ensures tasks == old(tasks) && batchMode == old(batchMode)
      ensures characterDefinitions == old(characterDefinitions) && customRules == old(customRules) && error == None
      ensures BatchOutcome(individualResults, combinedResult, requests)
        == BatchRun(ActiveTasks(tasks), batchMode, characterDefinitions, unknown, outcomes)
    {
      var run := RunBatch(ActiveTasks(tasks), batchMode, characterDefinitions, unknown, outcomes);
      error, individualResults, combinedResult, requests := None, run.individual, run.combined, run.requests;
    }

    /** `handleGenerateBatch` of the custom-rules view: the key check, then the rules check, then as in BatchView. */
    method GenerateBatch(apiKeys: seq<string>, optionsSelected: bool, msgs: BatchMessages, outcomes: seq<Outcome>)
      returns (requests: seq<TaskRequest>)
      requires |outcomes| == |ActiveTasks(tasks)|
      modifies this
      ensures tasks == old(tasks) && batchMode == old(batchMode) && customRules == old(customRules)
      ensures characterDefinitions == old(characterDefinitions)
      ensures apiKeys == [] ==> (
        && requests == [] && error == old(error)
        && (batchMode == Individual ==>
              individualResults == MissingKeyResults(tasks, msgs.apiKeyMissing) && combinedResult == old(combinedResult))
        && (batchMode == Combined ==>
              combinedResult == Some(CombinedResult([], Some(msgs.apiKeyMissing))) && individualResults == old(individualResults)))
      ensures apiKeys != [] && Trim(customRules) == "" ==>
        requests == [] && error == Some(msgs.customRulesRequired)
        && individualResults == old(individualResults) && combinedResult == old(combinedResult)
      ensures apiKeys != [] && Trim(customRules) != "" && !optionsSelected ==>
        requests == [] && error == old(error)
        && individualResults == old(individualResults) && combinedResult == old(combinedResult)
      ensures apiKeys != [] && Trim(customRules) != "" && optionsSelected ==>
        error == None &&
        BatchOutcome(individualResults, combinedResult, requests)
        == BatchRun(ActiveTasks(tasks), batchMode, characterDefinitions, msgs.unknown, outcomes)
    {
      requests := [];
      if apiKeys == [] {
        ReportMissingKey(msgs.apiKeyMissing);
        return;
      }
      if Trim(customRules) == "" {
        error := Some(msgs.customRulesRequired);
        return;
      }
      if !optionsSelected {
        return;
      }
      requests := RunActiveTasks(msgs.unknown, outcomes);
    }
  }
}
