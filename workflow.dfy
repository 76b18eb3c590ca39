/**
 * Multi-step agent workflows: a `Workflow` object owns a vector of steps, a cursor into it,
 * an overall state and a context map; each `WorkflowStep` carries its own small state machine.
 */
module Workflows {
  import opened Errors

  /** A JSON value from the context map or a tool's arguments, kept as its text. */
  type Value = string

  /** The overall state of a workflow. */
  datatype WorkflowState = Pending | Running | Paused | Completed | Failed(reason: string)
  {
    /** `is_complete`: the workflow has finished, successfully or not. */
    predicate IsFinished()
    {
      Completed? || Failed?
    }
  }

  datatype StepType = PromptType | ParallelPromptType | ConsensusType | HumanReviewType | ConditionalType | ToolType

  datatype StepState = StepPending | StepRunning | WaitingForHuman | StepCompleted | StepFailed(reason: string)

  /** The configuration of a step; the variant names the kind of work the step does. */
  datatype StepConfig =
    | PromptConfig(message: string, provider: Option<string>, context: Option<string>)
    | ParallelConfig(message: string, providers: seq<string>)
    | ConsensusConfig(message: string, minProviders: nat)
    | HumanReviewConfig(prompt: string)
    | ConditionalConfig(condition: string, thenStep: string, elseStep: Option<string>)
    | ToolConfig(toolName: string, arguments: Value)
  {
    /** The step type that goes with this configuration. */
    function Kind(): StepType
    {
      match this
      case PromptConfig(_, _, _) => PromptType
      case ParallelConfig(_, _) => ParallelPromptType
      case ConsensusConfig(_, _) => ConsensusType
      case HumanReviewConfig(_) => HumanReviewType
      case ConditionalConfig(_, _, _) => ConditionalType
      case ToolConfig(_, _) => ToolType
    }
  }

  /** One provider's answer within a parallel or consensus step. */
  datatype ProviderResponse = ProviderResponse(provider: string, text: string, selected: bool)

  /** What a finished step produced. */
  datatype StepResult = StepResult(output: string, provider: Option<string>,
                                   responses: Option<seq<ProviderResponse>>, durationMs: nat)

  /** A step of a workflow; it is owned by value by its workflow's step vector. */
  datatype WorkflowStep = WorkflowStep(id: string, name: string, stepType: StepType, state: StepState,
                                       config: StepConfig, result: Option<StepResult>)
  {
    /** The step's declared type agrees with the shape of its configuration. */
    predicate WellFormed()
    {
      stepType == config.Kind()
    }

    /** `start`: the step is running; nothing else changes. */
    function Start(): (s: WorkflowStep)
      ensures s.state == StepRunning
      ensures s == this.(state := s.state)
      ensures WellFormed() ==> s.WellFormed()
    {
      this.(state := StepRunning)
    }

    /** `complete`: the step is completed and keeps `r` as its result. */
    function Complete(r: StepResult): (s: WorkflowStep)
      ensures s.state == StepCompleted && s.result == Some(r)
      ensures s == this.(state := s.state, result := s.result)
      ensures WellFormed() ==> s.WellFormed()
    {
      this.(state := StepCompleted, result := Some(r))
    }

    /** `fail`: the step failed for `reason`; its result is untouched. */
    function Fail(reason: string): (s: WorkflowStep)
      ensures s.state == StepFailed(reason)
      ensures s == this.(state := s.state)
      ensures WellFormed() ==> s.WellFormed()
    {
      this.(state := StepFailed(reason))
    }
  }

  /** `WorkflowStep::prompt`: a pending prompt step with no pinned provider and no extra context. */
  function PromptStep(id: string, name: string, message: string): (s: WorkflowStep)
    ensures s.WellFormed() && s.state == StepPending && s.result == None
    ensures s.id == id && s.name == name && s.config == PromptConfig(message, None, None)
  {
    WorkflowStep(id, name, PromptType, StepPending, PromptConfig(message, None, None), None)
  }

  /** `WorkflowStep::parallel`: a pending step that asks every listed provider. */
  function ParallelStep(id: string, name: string, message: string, providers: seq<string>): (s: WorkflowStep)
    ensures s.WellFormed() && s.state == StepPending && s.result == None
    ensures s.id == id && s.name == name && s.config == ParallelConfig(message, providers)
  {
    WorkflowStep(id, name, ParallelPromptType, StepPending, ParallelConfig(message, providers), None)
  }

  /** `WorkflowStep::consensus`: a pending consensus step needing at least two answers. */
  function ConsensusStep(id: string, name: string, message: string): (s: WorkflowStep)
    ensures s.WellFormed() && s.state == StepPending && s.result == None
    ensures s.id == id && s.name == name && s.config == ConsensusConfig(message, 2)
  {
    WorkflowStep(id, name, ConsensusType, StepPending, ConsensusConfig(message, 2), None)
  }

  /** `WorkflowStep::review`: a pending step that waits for a person. */
  function ReviewStep(id: string, name: string, prompt: string): (s: WorkflowStep)
    ensures s.WellFormed() && s.state == StepPending && s.result == None
    ensures s.id == id && s.name == name && s.config == HumanReviewConfig(prompt)
  {
    WorkflowStep(id, name, HumanReviewType, StepPending, HumanReviewConfig(prompt), None)
  }

  /** Start, then complete, ends in `StepCompleted` with the result stored, whatever state the step was in. */
  lemma RunThenComplete(s: WorkflowStep, r: StepResult)
    requires s.WellFormed()
    ensures s.Start().Complete(r).state == StepCompleted && s.Start().Complete(r).result == Some(r)
    ensures s.Start().Complete(r).WellFormed()
    ensures s.Start().Complete(r).config == s.config
  {
  }

  /** A workflow: its steps, a cursor to the current one, an overall state and a context map. */
  class Workflow {
    const id: string
    const name: string
    var state: WorkflowState
    var steps: seq<WorkflowStep>
    var currentStep: nat
    var context: map<string, Value>

    /** The cursor never passes the end of the step vector. */
    ghost predicate Valid()
      reads this
    {
      currentStep <= |steps|
    }

    /** `Workflow::new`; the identifier is supplied by the caller. */
    constructor (id: string, name: string)
      ensures Valid()
      ensures this.id == id && this.name == name
      ensures state == Pending && steps == [] && currentStep == 0 && context == map[]
    {
      this.id := id;
      this.name := name;
      state := Pending;
      steps := [];
      currentStep := 0;
      context := map[];
    }

    /** `add_step`: append `step`; cursor, state and context are unchanged. */
    method AddStep(step: WorkflowStep)
      requires Valid()
      modifies this
      ensures Valid()
      ensures steps == old(steps) + [step]
      ensures currentStep == old(currentStep) && state == old(state) && context == old(context)
      ensures old(Current()).Some? ==> Current() == old(Current())
    {
      steps := steps + [step];
    }

    /** `current`: the step under the cursor, if the cursor is in range. */
    function Current(): (r: Option<WorkflowStep>)
      reads this
      ensures r.Some? <==> currentStep < |steps|
      ensures r.Some? ==> r.value == steps[currentStep] && r.value in steps
    {
      if currentStep < |steps| then Some(steps[currentStep]) else None
    }

    /**
     * `advance`: past the end, `InvalidState("workflow already complete")` and nothing changes; otherwise the cursor moves
     * one step and the workflow is `Completed` when it reaches the end.
     */
    method Advance() returns (r: Result<()>)
      requires Valid()
      modifies this
      ensures Valid()
      ensures steps == old(steps) && context == old(context)
      ensures r.Err? <==> old(currentStep) == |steps|
      ensures r.Err? ==> r.error == InvalidState("workflow already complete") && currentStep == old(currentStep) && state == old(state)
      ensures r.Ok? ==> currentStep == old(currentStep) + 1
      ensures r.Ok? ==> state == if currentStep == |steps| then Completed else old(state)
      ensures r.Ok? && !old(state).Completed? ==> (state.Completed? <==> currentStep == |steps|)
    {
      if currentStep >= |steps| {
        return Err(InvalidState("workflow already complete"));
      }
      currentStep := currentStep + 1;
      if currentStep >= |steps| {
        state := Completed;
      }
      r := Ok(());
    }

    /** `fail`: the workflow failed for `reason`; steps, cursor and context are untouched. */
    method Fail(reason: string)
      requires Valid()
      modifies this
      ensures Valid() && IsComplete()
      ensures state == Failed(reason)
      ensures steps == old(steps) && currentStep == old(currentStep) && context == old(context)
    {
      state := Failed(reason);
    }

    /** `is_complete`. */
    predicate IsComplete()
      reads this
    {
      state.IsFinished()
    }

    /** `set_context`: bind `key` to `value`; every other key keeps its value. */
    method SetContext(key: string, value: Value)
      requires Valid()
      modifies this
      ensures Valid()
      ensures context == old(context)[key := value]
      ensures GetContext(key) == Some(value)
      ensures forall k :: k != key ==> GetContext(k) == old(GetContext(k))
      ensures steps == old(steps) && currentStep == old(currentStep) && state == old(state)
    {
      context := context[key := value];
    }

    /** `get_context`. */
    function GetContext(key: string): (r: Option<Value>)
      reads this
      ensures r.Some? <==> key in context
      ensures r.Some? ==> r.value == context[key]
    {
      if key in context then Some(context[key]) else None
    }
  }

  /**
   * Creating a workflow, adding two prompt steps and advancing twice: the cursor is 1 after
   * the first advance, and the workflow is complete after the second.
   */
  method AdvanceScenario() returns (afterFirst: nat, complete: bool)
    ensures afterFirst == 1 && complete
  {
    var w := new Workflow("w", "test");
    w.AddStep(PromptStep("s1", "step 1", "Hello"));
    w.AddStep(PromptStep("s2", "step 2", "World"));
    var r := w.Advance();
    afterFirst := w.currentStep;
    r := w.Advance();
    complete := w.IsComplete();
  }

  /** Advancing a workflow with no steps is refused. */
  method EmptyAdvanceScenario() returns (r: Result<()>)
    ensures r.Err? && r.error.InvalidState?
  {
    var w := new Workflow("w", "empty");
    r := w.Advance();
  }
}
