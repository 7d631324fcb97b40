/** The workflow step runner, `ExecuteWorkflow` in
    internal/exec/worflow_utils.go.

    A workflow is an ordered list of steps. The runner names the unnamed
    steps in place, optionally skips to the step given by `--from-step`, and
    then dispatches the steps one at a time, stopping at the first error.
    The two executors (`ExecuteShell` for `shell` steps, `ExecuteShellCommand`
    re-invoking `atmos` for `atmos` steps) are an oracle `exec` from a call to
    its outcome; the runner's effect on the world is the list of calls it
    makes, in order. */
module WorkflowExec {
  import opened Wrappers
  import opened GoStrings

  /** One entry of a workflow's `steps` list. */
  datatype Step = Step(name: string, command: string, stepType: string, stack: string)

  /** A workflow definition. The steps live in one array shared with the
      caller, so the names the runner writes into it are seen by the caller. */
  datatype WorkflowDefinition = WorkflowDefinition(steps: array<Step>, stack: string)

  /** A call into one of the two executors. Both are called with the
      working directory "." and an empty extra environment. */
  datatype Call =
    | Shell(command: string, commandName: string, dir: string, dryRun: bool)
    | Command(program: string, args: seq<string>, dir: string, dryRun: bool)

  /** What an executor does with a call; dry-run is the executor's concern. */
  type Executor = Call -> Outcome<string>

  datatype WorkflowError =
    | NoSteps(workflow: string)
    | InvalidFromStep(workflow: string, fromStep: string)
    | InvalidStepType(stepType: string)
    | StepFailed(cause: string)  // the executor's own error, passed on as it is

  /** The end of a run: the error returned (None for nil) and the calls made. */
  datatype Run = Run(error: Option<WorkflowError>, calls: seq<Call>)

  /** Everything about a run that is the same for every step. */
  datatype Context = Context(
    workflow: string,
    workflowStack: string,
    commandLineStack: string,
    dryRun: bool)

  // ---------------------------------------------------------------------
  // Step names

  /** The generated name of the step at 0-based position `index`. */
  function AutoName(index: nat): string {
    "step" + NatToString(index + 1)
  }

  function NameStep(step: Step, index: nat): Step {
    if step.name == "" then step.(name := AutoName(index)) else step
  }

  /** The steps after name normalisation: every step has a name, named steps
      are untouched, an unnamed step at index i is called `step<i+1>`, and no
      field but the name ever changes. */
  function NormalizedNames(steps: seq<Step>): (r: seq<Step>)
    ensures |r| == |steps|
    ensures forall i :: 0 <= i < |r| ==> r[i].name != ""
    ensures forall i :: 0 <= i < |r| ==>
      r[i].command == steps[i].command && r[i].stepType == steps[i].stepType && r[i].stack == steps[i].stack
    ensures forall i :: 0 <= i < |r| && steps[i].name != "" ==> r[i] == steps[i]
    ensures forall i :: 0 <= i < |r| && steps[i].name == "" ==> r[i].name == AutoName(i)
  {
    seq(|steps|, i requires 0 <= i < |steps| => NameStep(steps[i], i))
  }

  /** Two generated names never clash. */
  lemma AutoNamesDistinct(i: nat, j: nat)
    requires i != j
    ensures AutoName(i) != AutoName(j)
  {
    if AutoName(i) == AutoName(j) {
      assert AutoName(i)[4..] == NatToString(i + 1);
      assert AutoName(j)[4..] == NatToString(j + 1);
      NatToStringInjective(i + 1, j + 1);
    }
  }

  /** The generated name of a step reads back as its 1-based position. */
  lemma AutoNameIsPosition(i: nat)
    ensures AutoName(i)[..4] == "step"
    ensures IsDecimal(AutoName(i)[4..]) && ParseDecimal(AutoName(i)[4..]) == i + 1
  {
    assert AutoName(i)[4..] == NatToString(i + 1);
    ParseNatToString(i + 1);
  }

  /** Writes `step<i+1>` into every unnamed step of the shared array. */
  method NormalizeStepNames(steps: array<Step>)
    modifies steps
    ensures steps[..] == NormalizedNames(old(steps[..]))
  {
    var index := 0;
    while index < steps.Length
      invariant 0 <= index <= steps.Length
      invariant forall i :: 0 <= i < index ==> steps[i] == NameStep(old(steps[i]), i)
      invariant forall i :: index <= i < steps.Length ==> steps[i] == old(steps[i])
    {
      if steps[index].name == "" {
        steps[index] := steps[index].(name := AutoName(index));
      }
      index := index + 1;
    }
  }

  // ---------------------------------------------------------------------
  // --from-step

  /** `lo.DropWhile(steps, name != fromStep)`: the steps from the first one
      named `fromStep` on, and nothing at all when no step has that name. */
  function DropUntilNamed(steps: seq<Step>, fromStep: string): (r: seq<Step>)
    ensures |r| <= |steps| && r == steps[|steps| - |r|..]
    ensures forall i :: 0 <= i < |steps| - |r| ==> steps[i].name != fromStep
    ensures r != [] ==> r[0].name == fromStep
    ensures r == [] <==> forall i :: 0 <= i < |steps| ==> steps[i].name != fromStep
  {
    if steps == [] || steps[0].name == fromStep then steps
    else DropUntilNamed(steps[1..], fromStep)
  }

  /** The steps kept are those from the first step with the name on. */
  lemma DropUntilFirstMatch(steps: seq<Step>, fromStep: string, j: nat)
    requires j < |steps| && steps[j].name == fromStep
    requires forall i :: 0 <= i < j ==> steps[i].name != fromStep
    ensures DropUntilNamed(steps, fromStep) == steps[j..]
  {
  }

  // ---------------------------------------------------------------------
  // Per-step resolution

  /** The last non-empty candidate, or "" when every candidate is empty. */
  function LastNonEmpty(candidates: seq<string>): string {
    if candidates == [] then ""
    else if candidates[|candidates| - 1] != "" then candidates[|candidates| - 1]
    else LastNonEmpty(candidates[..|candidates| - 1])
  }

  /** The result is blank exactly when every candidate is. */
  lemma {:induction false} LastNonEmptyBlank(candidates: seq<string>)
    ensures LastNonEmpty(candidates) == "" <==> forall i :: 0 <= i < |candidates| ==> candidates[i] == ""
  {
    if candidates != [] && candidates[|candidates| - 1] == "" {
      var init := candidates[..|candidates| - 1];
      LastNonEmptyBlank(init);
      assert forall i :: 0 <= i < |init| ==> init[i] == candidates[i];
    }
  }

  /** A non-blank candidate followed only by blank ones is the result: later
      candidates override earlier ones. */
  lemma {:induction false} LastNonEmptyIsLast(candidates: seq<string>, i: nat)
    requires i < |candidates| && candidates[i] != ""
    requires forall j :: i < j < |candidates| ==> candidates[j] == ""
    ensures LastNonEmpty(candidates) == candidates[i]
  {
    if i < |candidates| - 1 {
      var init := candidates[..|candidates| - 1];
      assert init[i] == candidates[i];
      LastNonEmptyIsLast(init, i);
    }
  }

  /** The stack a step runs against: workflow stack, then step stack, then
      the command-line stack, each overriding the ones before when set. The
      two stacks from the definition are trimmed, the command-line one is not. */
  function EffectiveStack(workflowStack: string, stepStack: string, commandLineStack: string): string {
    LastNonEmpty([TrimSpace(workflowStack), TrimSpace(stepStack), commandLineStack])
  }

  /** Read from the highest priority down: the command-line stack if set,
      else the step's, else the workflow's. */
  lemma EffectiveStackPrecedence(workflowStack: string, stepStack: string, commandLineStack: string)
    ensures EffectiveStack(workflowStack, stepStack, commandLineStack) ==
      if commandLineStack != "" then commandLineStack
      else if TrimSpace(stepStack) != "" then TrimSpace(stepStack)
      else TrimSpace(workflowStack)
  {
    var a, b := TrimSpace(workflowStack), TrimSpace(stepStack);
    assert [a][..0] == [];
    assert LastNonEmpty([a]) == a;
    assert [a, b][..1] == [a];
    assert LastNonEmpty([a, b]) == if b != "" then b else a;
    assert [a, b, commandLineStack][..2] == [a, b];
  }

  /** The trimmed step type, `atmos` when blank (all white space). */
  function StepType(step: Step): string {
    var t := TrimSpace(step.stepType);
    if t == "" then "atmos" else t
  }

  /** The arguments of an `atmos` step: the fields of its command, followed by
      `-s <stack>` when there is an effective stack. */
  function AtmosArgs(command: string, stack: string): seq<string> {
    Fields(command) + (if stack != "" then ["-s", stack] else [])
  }

  /** A blank type means `atmos`; otherwise the type is the trimmed one, which
      is never blank and has no white space at either end. */
  lemma StepTypeSpec(step: Step)
    ensures StepType(step) != ""
    ensures AllSpace(step.stepType) ==> StepType(step) == "atmos"
    ensures !AllSpace(step.stepType) ==> StepType(step) == TrimSpace(step.stepType)
    ensures !IsSpace(StepType(step)[0]) && !IsSpace(StepType(step)[|StepType(step)| - 1])
  {
    TrimSpaceSpec(step.stepType);
  }

  /** The arguments are the fields of the command (its words, which
      together hold every character of the command that is not white space),
      followed by `-s <stack>` exactly when there is a stack. */
  lemma AtmosArgsSpec(command: string, stack: string)
    ensures var args := AtmosArgs(command, stack);
      var n := |Fields(command)|;
      && |args| == n + (if stack != "" then 2 else 0)
      && args[..n] == Fields(command)
      && (forall i :: 0 <= i < n ==> args[i] != "" && NoSpace(args[i]))
      && Concat(args[..n]) == RemoveSpaces(command)
      && (stack != "" ==> args[n..] == ["-s", stack])
  {
    var args := AtmosArgs(command, stack);
    FieldsAreWords(command);
    FieldsKeepContent(command);
    assert args[..|Fields(command)|] == Fields(command);
  }

  /** What the runner does with the step at position `stepIdx` of the steps
      it runs: the call it makes, or the error for a type that is neither
      `atmos` nor `shell`. */
  function PlanStep(ctx: Context, step: Step, stepIdx: nat): Result<Call, WorkflowError> {
    var command := TrimSpace(step.command);
    var stepType := StepType(step);
    if stepType == "shell" then
      Success(Shell(command, ctx.workflow + "-step-" + NatToString(stepIdx), ".", ctx.dryRun))
    else if stepType == "atmos" then
      var stack := EffectiveStack(ctx.workflowStack, step.stack, ctx.commandLineStack);
      Success(Command("atmos", AtmosArgs(command, stack), ".", ctx.dryRun))
    else
      Failure(InvalidStepType(stepType))
  }

  /** A step whose trimmed type is neither `atmos` nor `shell` (a blank type
      counting as `atmos`) is an error naming that type. A `shell` step runs
      its trimmed command under the name `<workflow>-step-<stepIdx>`. An
      `atmos` step re-invokes `atmos` with the words of its command followed,
      when one is set, by `-s` and the command-line stack, else the step's,
      else the workflow's. Every call runs in "." with the run's dry-run flag. */
  lemma PlanStepSpec(ctx: Context, step: Step, stepIdx: nat)
    ensures var r := PlanStep(ctx, step, stepIdx);
      var t := TrimSpace(step.stepType);
      && (r.Failure? <==> t != "" && t != "atmos" && t != "shell")
      && (r.Failure? ==> r.error == InvalidStepType(t))
      && (t == "shell" ==>
            r == Success(Shell(TrimSpace(step.command), ctx.workflow + "-step-" + NatToString(stepIdx), ".", ctx.dryRun)))
      && (t == "" || t == "atmos" ==>
            r == Success(Command("atmos", AtmosArgs(TrimSpace(step.command),
                   if ctx.commandLineStack != "" then ctx.commandLineStack
                   else if TrimSpace(step.stack) != "" then TrimSpace(step.stack)
                   else TrimSpace(ctx.workflowStack)), ".", ctx.dryRun)))
  {
    EffectiveStackPrecedence(ctx.workflowStack, step.stack, ctx.commandLineStack);
  }

  /** The name a `shell` step runs under ends in its position among the steps
      run, so two steps of one run never share a name. */
  lemma ShellNamesDistinct(ctx: Context, a: Step, b: Step, i: nat, j: nat)
    requires i != j
    requires PlanStep(ctx, a, i).Success? && PlanStep(ctx, a, i).value.Shell?
    requires PlanStep(ctx, b, j).Success? && PlanStep(ctx, b, j).value.Shell?
    ensures PlanStep(ctx, a, i).value.commandName != PlanStep(ctx, b, j).value.commandName
  {
    var p := ctx.workflow + "-step-";
    var na, nb := PlanStep(ctx, a, i).value.commandName, PlanStep(ctx, b, j).value.commandName;
    assert na == p + NatToString(i);
    assert nb == p + NatToString(j);
    if na == nb {
      assert na[|p|..] == NatToString(i);
      assert nb[|p|..] == NatToString(j);
      NatToStringInjective(i, j);
    }
  }

  /** The per-step part of the runner's loop: trims the command and the
      type, defaults the type, and builds the call, the stack being chosen
      by successive overrides. */
  method PrepareStep(ctx: Context, step: Step, stepIdx: nat) returns (r: Result<Call, WorkflowError>)
    ensures r == PlanStep(ctx, step, stepIdx)
  {
    var command := TrimSpace(step.command);
    var commandType := TrimSpace(step.stepType);
    if commandType == "" {
      commandType := "atmos";
    }

    if commandType == "shell" {
      var commandName := ctx.workflow + "-step-" + NatToString(stepIdx);
      r := Success(Shell(command, commandName, ".", ctx.dryRun));
    } else if commandType == "atmos" {
      var args := Fields(command);
      var workflowStack := TrimSpace(ctx.workflowStack);
      var stepStack := TrimSpace(step.stack);
      var finalStack := "";
      if workflowStack != "" {
        finalStack := workflowStack;
      }
      if stepStack != "" {
        finalStack := stepStack;
      }
      if ctx.commandLineStack != "" {
        finalStack := ctx.commandLineStack;
      }
      if finalStack != "" {
        args := args + ["-s", finalStack];
      }
      EffectiveStackPrecedence(ctx.workflowStack, step.stack, ctx.commandLineStack);
      assert finalStack == EffectiveStack(ctx.workflowStack, step.stack, ctx.commandLineStack);
      assert args == AtmosArgs(command, finalStack);
      r := Success(Command("atmos", args, ".", ctx.dryRun));
      assert StepType(step) == "atmos";
    } else {
      r := Failure(InvalidStepType(commandType));
    }
  }

  // ---------------------------------------------------------------------
  // Sequencing

  /** What the runner does with the step at a given position of the steps
      it runs; `PlanStep` of the run's context is the one it uses. */
  type Planner = (Step, nat) -> Result<Call, WorkflowError>

  function StepPlanner(ctx: Context): Planner {
    (step: Step, stepIdx: nat) => PlanStep(ctx, step, stepIdx)
  }

  /** Running `steps[k..]`, stopping at the first error. */
  function RunFrom(plan: Planner, exec: Executor, steps: seq<Step>, k: nat): Run
    requires k <= |steps|
    decreases |steps| - k
  {
    if k == |steps| then Run(None, [])
    else match plan(steps[k], k)
      case Failure(e) => Run(Some(e), [])
      case Success(call) =>
        match exec(call)
        case Fail(e) => Run(Some(StepFailed(e)), [call])
        case Pass =>
          var rest := RunFrom(plan, exec, steps, k + 1);
          Run(rest.error, [call] + rest.calls)
  }

  /** A step stops the run: it cannot be planned or its call fails. */
  predicate Stops(plan: Planner, exec: Executor, step: Step, k: nat) {
    plan(step, k).Failure? || exec(plan(step, k).value).Fail?
  }

  /** The position of the first step from `k` on that stops the run, or the
      number of steps when none does. */
  function FirstStop(plan: Planner, exec: Executor, steps: seq<Step>, k: nat): (j: nat)
    requires k <= |steps|
    ensures k <= j <= |steps|
    ensures forall i :: k <= i < j ==> !Stops(plan, exec, steps[i], i)
    ensures j < |steps| ==> Stops(plan, exec, steps[j], j)
    decreases |steps| - k
  {
    if k == |steps| || Stops(plan, exec, steps[k], k) then k else FirstStop(plan, exec, steps, k + 1)
  }

  /** Fail-fast: with j the first step that stops the run, the runner makes
      the calls of the steps before j, in order, all of which succeed, plus
      the call of step j when it got as far as calling; it returns nil
      exactly when no step stops it, and otherwise the error of step j, an
      executor's error being passed on unchanged. */
  lemma {:induction false} FailFast(plan: Planner, exec: Executor, steps: seq<Step>, k: nat)
    requires k <= |steps|
    ensures var r := RunFrom(plan, exec, steps, k);
      var j := FirstStop(plan, exec, steps, k);
      && |r.calls| == j - k + (if j < |steps| && plan(steps[j], j).Success? then 1 else 0)
      && (forall i :: 0 <= i < |r.calls| ==> plan(steps[k + i], k + i) == Success(r.calls[i]))
      && (forall i :: 0 <= i < j - k ==> exec(r.calls[i]) == Pass)
      && (r.error == None <==> j == |steps|)
      && (j < |steps| && plan(steps[j], j).Failure? ==> r.error == Some(plan(steps[j], j).error))
      && (j < |steps| && plan(steps[j], j).Success? ==>
            r.error == Some(StepFailed(exec(plan(steps[j], j).value).error)))
    decreases |steps| - k
  {
    var r := RunFrom(plan, exec, steps, k);
    var j := FirstStop(plan, exec, steps, k);
    if k < |steps| && !Stops(plan, exec, steps[k], k) {
      FailFast(plan, exec, steps, k + 1);
      var call := plan(steps[k], k).value;
      var rest := RunFrom(plan, exec, steps, k + 1);
      assert r == Run(rest.error, [call] + rest.calls);
      assert j == FirstStop(plan, exec, steps, k + 1);
      forall i | 0 <= i < |r.calls|
        ensures plan(steps[k + i], k + i) == Success(r.calls[i])
      {
        if i > 0 {
          assert r.calls[i] == rest.calls[i - 1];
        }
      }
      forall i | 0 <= i < j - k
        ensures exec(r.calls[i]) == Pass
      {
        if i > 0 {
          assert r.calls[i] == rest.calls[i - 1];
        }
      }
    }
  }

  /** The whole of `ExecuteWorkflow`, given the steps as they were before the
      call. */
  function Workflow(ctx: Context, exec: Executor, steps: seq<Step>, fromStep: string): Run {
    if |steps| == 0 then Run(Some(NoSteps(ctx.workflow)), [])
    else
      var named := NormalizedNames(steps);
      var run := if fromStep != "" then DropUntilNamed(named, fromStep) else named;
      if |run| == 0 then Run(Some(InvalidFromStep(ctx.workflow, fromStep)), [])
      else RunFrom(StepPlanner(ctx), exec, run, 0)
  }

  /** A workflow without steps is an error and runs nothing. */
  lemma EmptyWorkflowFails(ctx: Context, exec: Executor, fromStep: string)
    ensures Workflow(ctx, exec, [], fromStep) == Run(Some(NoSteps(ctx.workflow)), [])
  {
  }

  /** `--from-step` naming no step, after normalisation, is an error raised
      before any step runs. */
  lemma FromStepMissing(ctx: Context, exec: Executor, steps: seq<Step>, fromStep: string)
    requires |steps| > 0 && fromStep != ""
    requires forall i :: 0 <= i < |steps| ==> NormalizedNames(steps)[i].name != fromStep
    ensures Workflow(ctx, exec, steps, fromStep) == Run(Some(InvalidFromStep(ctx.workflow, fromStep)), [])
  {
  }

  /** With `--from-step`, the steps run are exactly the suffix that starts at
      the first step carrying that name, renumbered from 0. */
  lemma FromStepStartsAtFirstMatch(ctx: Context, exec: Executor, steps: seq<Step>, fromStep: string, j: nat)
    requires fromStep != "" && j < |steps|
    requires NormalizedNames(steps)[j].name == fromStep
    requires forall i :: 0 <= i < j ==> NormalizedNames(steps)[i].name != fromStep
    ensures Workflow(ctx, exec, steps, fromStep) == RunFrom(StepPlanner(ctx), exec, NormalizedNames(steps)[j..], 0)
  {
    DropUntilFirstMatch(NormalizedNames(steps), fromStep, j);
  }

  /** Without `--from-step`, every step runs, numbered from 0. */
  lemma NoFromStepRunsAll(ctx: Context, exec: Executor, steps: seq<Step>)
    requires |steps| > 0
    ensures Workflow(ctx, exec, steps, "") == RunFrom(StepPlanner(ctx), exec, NormalizedNames(steps), 0)
  {
  }

  // ---------------------------------------------------------------------
  // The runner

  /** `ExecuteWorkflow`: names the unnamed steps of the shared array, then
      runs the workflow; returns the error (None for nil) and the executor
      calls made, in order. */
  method ExecuteWorkflow(
    workflow: string,
    definition: WorkflowDefinition,
    dryRun: bool,
    commandLineStack: string,
    fromStep: string,
    exec: Executor
  ) returns (err: Option<WorkflowError>, calls: seq<Call>)
    modifies definition.steps
    ensures definition.steps[..] == NormalizedNames(old(definition.steps[..]))
    ensures Run(err, calls) ==
      Workflow(Context(workflow, definition.stack, commandLineStack, dryRun), exec, old(definition.steps[..]), fromStep)
  {
    var steps := definition.steps;
    if steps.Length == 0 {
      return Some(NoSteps(workflow)), [];
    }

    NormalizeStepNames(steps);

    var run := steps[..];
    if fromStep != "" {
      run := DropUntilNamed(run, fromStep);
      if |run| == 0 {
        return Some(InvalidFromStep(workflow, fromStep)), [];
      }
    }

    err, calls := RunSteps(Context(workflow, definition.stack, commandLineStack, dryRun), exec, run);
  }

  /** The loop of `ExecuteWorkflow` over the steps to run. */
  method RunSteps(ctx: Context, exec: Executor, run: seq<Step>) returns (err: Option<WorkflowError>, calls: seq<Call>)
    ensures Run(err, calls) == RunFrom(StepPlanner(ctx), exec, run, 0)
  {
    ghost var plan := StepPlanner(ctx);
    calls := [];
    var stepIdx := 0;
    while stepIdx < |run|
      invariant 0 <= stepIdx <= |run|
      invariant Resumes(plan, exec, run, stepIdx, calls)
    {
      var prepared := PrepareStep(ctx, run[stepIdx], stepIdx);
      if prepared.Failure? {
        StopAtPlan(plan, exec, run, stepIdx, calls);
        return Some(prepared.error), calls;
      }
      var call := prepared.value;
      var outcome := exec(call);
      if outcome.Fail? {
        StopAtCall(plan, exec, run, stepIdx, calls);
        return Some(StepFailed(outcome.error)), calls + [call];
      }
      Advance(plan, exec, run, stepIdx, calls);
      calls := calls + [call];
      stepIdx := stepIdx + 1;
    }
    RunEnds(plan, exec, run, calls);
    return None, calls;
  }

  /** After the calls `calls`, the run carries on with the steps from `k`. */
  ghost predicate Resumes(plan: Planner, exec: Executor, steps: seq<Step>, k: nat, calls: seq<Call>)
    requires k <= |steps|
  {
    RunFrom(plan, exec, steps, 0) ==
      Run(RunFrom(plan, exec, steps, k).error, calls + RunFrom(plan, exec, steps, k).calls)
  }

  lemma StopAtPlan(plan: Planner, exec: Executor, steps: seq<Step>, k: nat, calls: seq<Call>)
    requires k < |steps| && Resumes(plan, exec, steps, k, calls) && plan(steps[k], k).Failure?
    ensures RunFrom(plan, exec, steps, 0) == Run(Some(plan(steps[k], k).error), calls)
  {
    assert calls + [] == calls;
  }

  lemma StopAtCall(plan: Planner, exec: Executor, steps: seq<Step>, k: nat, calls: seq<Call>)
    requires k < |steps| && Resumes(plan, exec, steps, k, calls)
    requires plan(steps[k], k).Success? && exec(plan(steps[k], k).value).Fail?
    ensures RunFrom(plan, exec, steps, 0) ==
      Run(Some(StepFailed(exec(plan(steps[k], k).value).error)), calls + [plan(steps[k], k).value])
  {
  }

  lemma Advance(plan: Planner, exec: Executor, steps: seq<Step>, k: nat, calls: seq<Call>)
    requires k < |steps| && Resumes(plan, exec, steps, k, calls)
    requires plan(steps[k], k).Success? && exec(plan(steps[k], k).value).Pass?
    ensures Resumes(plan, exec, steps, k + 1, calls + [plan(steps[k], k).value])
  {
    var rest := RunFrom(plan, exec, steps, k + 1);
    assert calls + ([plan(steps[k], k).value] + rest.calls) == (calls + [plan(steps[k], k).value]) + rest.calls;
  }

  lemma RunEnds(plan: Planner, exec: Executor, steps: seq<Step>, calls: seq<Call>)
    requires Resumes(plan, exec, steps, |steps|, calls)
    ensures RunFrom(plan, exec, steps, 0) == Run(None, calls)
  {
    assert calls + [] == calls;
  }
}
