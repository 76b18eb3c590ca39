/**
 * The tool layer: provider-name parsing, the argument checks of the prompt, parallel, consensus
 * and workflow-start tools, and the name-keyed tool registry.
 */
module Tools {
  import opened Errors
  import opened Text
  import opened Providers
  import opened Router
  import opened Workflows
  import opened Orchestrator

  /** `parse_provider`: lower-case the name, accept the six names and the aliases `openai` and `notebook`. */
  function ParseProvider(s: string): (r: Result<Provider>)
    ensures r.Err? ==> r.error == InvalidParams("unknown provider: " + s)
  {
    match ToLower(s)
    case "claude" => Ok(Claude)
    case "grok" => Ok(Grok)
    case "gemini" => Ok(Gemini)
    case "chatgpt" => Ok(ChatGpt)
    case "openai" => Ok(ChatGpt)
    case "perplexity" => Ok(Perplexity)
    case "notebooklm" => Ok(NotebookLm)
    case "notebook" => Ok(NotebookLm)
    case _ => Err(InvalidParams("unknown provider: " + s))
  }

  /** The lower-case spellings `parse_provider` accepts for `p`. */
  function Spellings(p: Provider): set<string>
  {
    match p
    case ChatGpt => {Name(p), "openai"}
    case NotebookLm => {Name(p), "notebook"}
    case _ => {Name(p)}
  }

  /** `s` parses to `p` exactly when its lower-case form is one of `p`'s spellings. */
  lemma ParseProviderSpec(s: string, p: Provider)
    ensures ParseProvider(s) == Ok(p) <==> ToLower(s) in Spellings(p)
  {
    if ToLower(s) in Spellings(p) {
      match p
      case Claude =>
      case Grok =>
      case Gemini =>
      case ChatGpt =>
      case Perplexity =>
      case NotebookLm =>
    }
  }

  /** Every provider's display name parses back to it. */
  lemma ParseName(p: Provider)
    ensures ParseProvider(Name(p)) == Ok(p)
  {
    NameIsLower(p);
    ParseProviderSpec(Name(p), p);
  }

  /** The upper-case display name parses too: parsing ignores case. */
  lemma ParseUpperName(p: Provider)
    ensures ParseProvider(ToUpper(Name(p))) == Ok(p)
  {
    var s := ToUpper(Name(p));
    NameIsLower(p);
    LowerOfUpper(Name(p));
    assert ToLower(s) == Name(p);
    ParseProviderSpec(s, p);
  }

  /** Every name a pinned workflow step recognises parses to the same provider here. */
  lemma PinnedNamesParse(s: string)
    requires ProviderFromName(s).Some?
    ensures ParseProvider(s) == Ok(ProviderFromName(s).value)
  {
  }

  /** The alias `openai` is accepted here, but a workflow step pinned to it is not recognised. */
  lemma AliasOnlyInTools()
    ensures ParseProvider("openai") == Ok(ChatGpt)
    ensures ProviderFromName("openai") == None
  {
    assert ToLower("openai") == "openai";
  }

  /** The parseable provider names, in order (`filter_map` over `parse_provider`). */
  function ValidProviders(names: seq<string>): (ps: seq<Provider>)
    ensures |ps| <= |names|
    ensures forall p :: p in ps ==> exists n :: n in names && ParseProvider(n) == Ok(p)
    ensures (forall n :: n in names ==> ParseProvider(n).Ok?) ==> |ps| == |names|
  {
    if names == [] then []
    else
      assert forall p :: p in ValidProviders(names[1..]) ==> exists n :: n in names[1..] && ParseProvider(n) == Ok(p);
      Parsed(names[0]) + ValidProviders(names[1..])
  }

  /** The provider a name parses to, as a list of at most one. */
  function Parsed(n: string): (ps: seq<Provider>)
    ensures ps == if ParseProvider(n).Ok? then [ParseProvider(n).value] else []
  {
    match ParseProvider(n) case Ok(p) => [p] case Err(_) => []
  }

  /** `ValidProviders` keeps a name exactly when it parses: it distributes over concatenation... */
  lemma {:induction false} ValidProvidersAppend(a: seq<string>, b: seq<string>)
    ensures ValidProviders(a + b) == ValidProviders(a) + ValidProviders(b)
  {
    if a == [] {
      assert a + b == b;
    } else {
      assert (a + b)[0] == a[0];
      assert (a + b)[1..] == a[1..] + b;
      ValidProvidersAppend(a[1..], b);
    }
  }

  /** ... and maps a single name to its provider, or drops it. */
  lemma ValidProvidersOfOne(n: string)
    ensures ValidProviders([n]) == if ParseProvider(n).Ok? then [ParseProvider(n).value] else []
  {
    assert [n][1..] == [];
  }

  /** The display names of `ps`, in order. */
  function Names(ps: seq<Provider>): (names: seq<string>)
    ensures |names| == |ps|
  {
    if ps == [] then [] else [Name(ps[0])] + Names(ps[1..])
  }

  /** Display names are always kept, so listing providers by name loses none of them. */
  lemma {:induction false} NamesAreValid(ps: seq<Provider>)
    ensures ValidProviders(Names(ps)) == ps
  {
    if ps != [] {
      var names := Names(ps);
      ParseName(ps[0]);
      NamesAreValid(ps[1..]);
      assert names[0] == Name(ps[0]) && names[1..] == Names(ps[1..]);
      assert ps == [ps[0]] + ps[1..];
    }
  }

  /** The parallel tool's check: at least two parseable providers, or `InvalidParams`. */
  function CheckParallelProviders(names: seq<string>): (r: Result<seq<Provider>>)
    ensures r.Ok? <==> |ValidProviders(names)| >= 2
    ensures r.Ok? ==> r.value == ValidProviders(names)
    ensures r.Err? ==> r.error.InvalidParams?
  {
    var providers := ValidProviders(names);
    if |providers| < 2 then Err(InvalidParams("need at least 2 valid providers")) else Ok(providers)
  }

  /** The provider identifiers `ListProvidersTool` lists, in its order. */
  const ListedProviderIds: seq<string> := ["claude", "grok", "gemini", "chatgpt", "perplexity", "notebooklm"]

  /** Every listed identifier parses, to the six providers in listing order. */
  lemma ListedProvidersParse()
    ensures ValidProviders(ListedProviderIds) == [Claude, Grok, Gemini, ChatGpt, Perplexity, NotebookLm]
  {
    var ps := [Claude, Grok, Gemini, ChatGpt, Perplexity, NotebookLm];
    assert Names(ps[5..]) == ["notebooklm"];
    assert Names(ps[4..]) == ["perplexity"] + Names(ps[5..]);
    assert Names(ps[3..]) == ["chatgpt"] + Names(ps[4..]);
    assert Names(ps[2..]) == ["gemini"] + Names(ps[3..]);
    assert Names(ps[1..]) == ["grok"] + Names(ps[2..]);
    assert Names(ps) == ListedProviderIds;
    NamesAreValid(ps);
  }

  /** The consensus tool asks for three providers unless told otherwise. */
  function ConsensusMinimum(arg: Option<nat>): (n: nat)
    ensures arg.None? ==> n == 3
    ensures arg.Some? ==> n == arg.value
  {
    match arg case Some(n) => n case None => 3
  }

  /** `PromptTool::execute`: a named provider must parse, otherwise the router chooses. */
  method PromptTool(o: AgentOrchestrator, b: Backend, message: string, provider: Option<string>, now: nat)
    returns (r: Result<PromptResponse>)
    requires o.router.Valid()
    modifies o.router
    ensures o.router.Valid()
    ensures provider.Some? && ParseProvider(provider.value).Err? ==>
              r.Err? && r.error.InvalidParams? && unchanged(o.router)
    ensures provider.Some? && ParseProvider(provider.value).Ok? ==>
              && r == PromptResult(b, ParseProvider(provider.value).value, message)
              && o.router.health == HealthAfter(b, Some(ParseProvider(provider.value).value), message, now, old(o.router.health))
              && o.router.stats == StatsAfter(b, Some(ParseProvider(provider.value).value), message, old(o.router.stats))
    ensures provider.None? ==>
              && r == old(BestPromptOutcome(o.router, b, message, now))
              && o.router.health == HealthAfter(b, old(BestTarget(o.router, now)), message, now, old(o.router.health))
              && o.router.stats == StatsAfter(b, old(BestTarget(o.router, now)), message, old(o.router.stats))
  {
    if provider.Some? {
      var parsed := ParseProvider(provider.value);
      if parsed.Err? {
        return Err(parsed.error);
      }
      r := o.PromptProvider(b, parsed.value, message, now);
    } else {
      r := o.Prompt(b, message, now);
    }
  }

  /** `ParallelPromptTool::execute`: check the providers, then prompt them all in the order given. */
  method ParallelPromptTool(o: AgentOrchestrator, b: Backend, message: string, names: seq<string>)
    returns (r: Result<seq<(Provider, Result<PromptResponse>)>>)
    ensures |ValidProviders(names)| < 2 ==> r.Err? && r.error.InvalidParams?
    ensures |ValidProviders(names)| >= 2 ==>
              r == if b.launches then Ok(Responses(b, message, ValidProviders(names))) else Err(LaunchError)
  {
    var providers := CheckParallelProviders(names);
    if providers.Err? {
      return Err(providers.error);
    }
    r := o.ParallelPrompt(b, message, providers.value);
  }

  /** `ConsensusTool::execute`: a consensus over `max(minimum, 3)` providers, the minimum defaulting to 3. */
  method ConsensusTool(o: AgentOrchestrator, b: Backend, message: string, minArg: Option<nat>, now: nat)
    returns (r: Result<ConsensusResult>)
    requires o.router.Valid()
    ensures r == ConsensusOutcome(o.router, b, message, ConsensusMinimum(minArg), now)
    ensures |o.router.AvailableProviders(now)| < Max(ConsensusMinimum(minArg), 3) ==> r.Err? && r.error.NoProviders?
    ensures r.Ok? ==> exists chosen: seq<Provider> ::
              && |chosen| == Max(ConsensusMinimum(minArg), 3)
              && o.router.IsTopRanked(o.router.AvailableProviders(now), chosen, General)
              && |Successes(Responses(b, message, chosen))| >= ConsensusMinimum(minArg)
              && r.value == FindConsensus(Successes(Responses(b, message, chosen)))
  {
    ghost var chosen;
    r, chosen := o.ConsensusPrompt(b, message, ConsensusMinimum(minArg), now);
  }

  /** One entry of the `steps` argument of the workflow-start tool. */
  datatype StepDef = StepDef(name: string, stepType: string, message: string,
                             provider: Option<string>, providers: Option<seq<string>>)

  /** The step types the workflow-start tool knows. */
  predicate KnownStepType(t: string)
  {
    t == "prompt" || t == "parallel" || t == "consensus" || t == "review"
  }

  /** The step a definition describes; a pinned `provider` is not carried over. */
  function StepFromDef(d: StepDef, id: string): (r: Result<WorkflowStep>)
    ensures r.Ok? <==> KnownStepType(d.stepType)
    ensures r.Err? ==> r.error == InvalidParams("unknown step type: " + d.stepType)
    ensures r.Ok? ==> r.value.WellFormed() && r.value.state == StepPending && r.value.name == d.name && r.value.id == id
    ensures r.Ok? ==> r.value.result == None
    ensures d.stepType == "prompt" ==> r.Ok? && r.value.config == PromptConfig(d.message, None, None)
    ensures d.stepType == "parallel" ==>
              r.Ok? && r.value.config == ParallelConfig(d.message, if d.providers.Some? then d.providers.value else [])
    ensures d.stepType == "consensus" ==> r.Ok? && r.value.config == ConsensusConfig(d.message, 2)
    ensures d.stepType == "review" ==> r.Ok? && r.value.config == HumanReviewConfig(d.message)
  {
    match d.stepType
    case "prompt" => Ok(PromptStep(id, d.name, d.message))
    case "parallel" => Ok(ParallelStep(id, d.name, d.message, match d.providers case Some(ps) => ps case None => []))
    case "consensus" => Ok(ConsensusStep(id, d.name, d.message))
    case "review" => Ok(ReviewStep(id, d.name, d.message))
    case _ => Err(InvalidParams("unknown step type: " + d.stepType))
  }

  /** The steps for `defs` in order, or the error of the first definition with an unknown type. */
  function BuildSteps(defs: seq<StepDef>, ids: seq<string>): (r: Result<seq<WorkflowStep>>)
    requires |ids| == |defs|
    decreases |defs|
  {
    if defs == [] then Ok([])
    else
      var n := |defs| - 1;
      match BuildSteps(defs[..n], ids[..n])
      case Err(e) => Err(e)
      case Ok(steps) =>
        match StepFromDef(defs[n], ids[n])
        case Err(e) => Err(e)
        case Ok(step) => Ok(steps + [step])
  }

  /** Building succeeds exactly when every type is known; then there is one step per definition, in order. */
  lemma {:induction false} BuildStepsOk(defs: seq<StepDef>, ids: seq<string>)
    requires |ids| == |defs|
    ensures BuildSteps(defs, ids).Ok? <==> forall i :: 0 <= i < |defs| ==> KnownStepType(defs[i].stepType)
    ensures BuildSteps(defs, ids).Ok? ==>
              && |BuildSteps(defs, ids).value| == |defs|
              && forall i :: 0 <= i < |defs| ==> BuildSteps(defs, ids).value[i] == StepFromDef(defs[i], ids[i]).value
    decreases |defs|
  {
    if defs != [] {
      var n := |defs| - 1;
      BuildStepsOk(defs[..n], ids[..n]);
      assert forall j :: 0 <= j < n ==> defs[..n][j] == defs[j] && ids[..n][j] == ids[j];
    }
  }

  /** Definition `i` is the first one whose type is unknown. */
  predicate FirstUnknown(defs: seq<StepDef>, i: int)
  {
    && 0 <= i < |defs|
    && !KnownStepType(defs[i].stepType)
    && forall j :: 0 <= j < i ==> KnownStepType(defs[j].stepType)
  }

  /** A failed build reports the first definition of unknown type. */
  lemma {:induction false} BuildStepsFirstError(defs: seq<StepDef>, ids: seq<string>)
    requires |ids| == |defs| && BuildSteps(defs, ids).Err?
    ensures exists i :: FirstUnknown(defs, i) && BuildSteps(defs, ids).error == InvalidParams("unknown step type: " + defs[i].stepType)
    decreases |defs|
  {
    var n := |defs| - 1;
    assert forall j :: 0 <= j < n ==> defs[..n][j] == defs[j];
    if BuildSteps(defs[..n], ids[..n]).Err? {
      BuildStepsFirstError(defs[..n], ids[..n]);
      var i :| FirstUnknown(defs[..n], i)
               && BuildSteps(defs[..n], ids[..n]).error == InvalidParams("unknown step type: " + defs[..n][i].stepType);
      assert FirstUnknown(defs, i);
    } else {
      BuildStepsOk(defs[..n], ids[..n]);
      assert FirstUnknown(defs, n);
    }
  }

  /**
   * `WorkflowStartTool::execute`: build a workflow from the step definitions, adding the steps
   * one by one, and file it with the orchestrator; an unknown step type stops the build and no
   * workflow is filed. Workflow and step identifiers are supplied by the caller.
   */
  method WorkflowStartTool(o: AgentOrchestrator, workflowId: string, name: string, defs: seq<StepDef>, stepIds: seq<string>)
    returns (r: Result<string>)
    requires o.Valid() && |stepIds| == |defs|
    modifies o
    ensures o.Valid()
    ensures r.Err? <==> BuildSteps(defs, stepIds).Err?
    ensures r.Err? ==> r == Err(BuildSteps(defs, stepIds).error) && o.workflows == old(o.workflows)
    ensures r.Ok? ==>
              && r.value == workflowId && workflowId in o.workflows
              && fresh(o.workflows[workflowId])
              && o.workflows == old(o.workflows)[workflowId := o.workflows[workflowId]]
              && o.workflows[workflowId].name == name && o.workflows[workflowId].state == Pending
              && o.workflows[workflowId].steps == BuildSteps(defs, stepIds).value
              && o.workflows[workflowId].currentStep == 0 && o.workflows[workflowId].context == map[]
  {
    var w := new Workflow(workflowId, name);
    for i := 0 to |defs|
      invariant fresh(w) && w.Valid()
      invariant o.Valid() && o.workflows == old(o.workflows)
      invariant w.id == workflowId && w.name == name && w.state == Pending && w.currentStep == 0 && w.context == map[]
      invariant BuildSteps(defs[..i], stepIds[..i]) == Ok(w.steps)
    {
      var step := StepFromDef(defs[i], stepIds[i]);
      BuildStepsExtend(defs, stepIds, i, w.steps);
      if step.Err? {
        PrefixErrorSticks(defs, stepIds, i + 1);
        return Err(step.error);
      }
      w.AddStep(step.value);
    }
    assert defs[..|defs|] == defs && stepIds[..|stepIds|] == stepIds;
    var id := o.StartWorkflow(w);
    r := Ok(id);
  }

  /** Building one more definition appends its step, or fails with its error. */
  lemma BuildStepsExtend(defs: seq<StepDef>, ids: seq<string>, i: nat, steps: seq<WorkflowStep>)
    requires |ids| == |defs| && i < |defs| && BuildSteps(defs[..i], ids[..i]) == Ok(steps)
    ensures BuildSteps(defs[..i + 1], ids[..i + 1])
            == match StepFromDef(defs[i], ids[i]) case Ok(step) => Ok(steps + [step]) case Err(e) => Err(e)
  {
    assert defs[..i + 1][..i] == defs[..i] && ids[..i + 1][..i] == ids[..i];
  }

  /** Once a prefix of the definitions fails, so does every longer prefix, with the same error. */
  lemma {:induction false} PrefixErrorSticks(defs: seq<StepDef>, ids: seq<string>, k: nat)
    requires |ids| == |defs| && k <= |defs|
    requires BuildSteps(defs[..k], ids[..k]).Err?
    ensures BuildSteps(defs, ids) == BuildSteps(defs[..k], ids[..k])
    decreases |defs| - k
  {
    if k < |defs| {
      var n := |defs[..k + 1]| - 1;
      assert defs[..k + 1][..n] == defs[..k] && ids[..k + 1][..n] == ids[..k];
      assert BuildSteps(defs[..k + 1], ids[..k + 1]) == BuildSteps(defs[..k], ids[..k]);
      PrefixErrorSticks(defs, ids, k + 1);
    } else {
      assert defs[..k] == defs && ids[..k] == ids;
    }
  }

  /** What the workflow-step tool reports: the step's result and where the workflow now stands. */
  datatype StepReport = StepReport(result: StepResult, complete: bool, current: nat, total: nat)

  /**
   * `WorkflowStepTool::execute`: run the current step of workflow `id`, then report the step's
   * result with the workflow's completion, cursor and number of steps.
   */
  method WorkflowStepTool(o: AgentOrchestrator, b: Backend, id: string, now: nat, durationMs: nat)
    returns (r: Result<StepReport>)
    requires o.Valid()
    modifies o.router, if id in o.workflows then {o.workflows[id]} else {}
    ensures o.Valid() && o.workflows == old(o.workflows)
    ensures id !in o.workflows ==> r.Err? && r.error.Workflow?
    ensures old(o.ExecuteOutcome(b, id, now, durationMs)).Err? ==> r == Err(old(o.ExecuteOutcome(b, id, now, durationMs)).error)
    ensures old(o.ExecuteOutcome(b, id, now, durationMs)).Ok? ==>
              r.Ok? && r.value.result == old(o.ExecuteOutcome(b, id, now, durationMs)).value
    ensures r.Ok? ==>
              && id in o.workflows && 0 < r.value.current <= r.value.total
              && r.value.complete == o.workflows[id].IsComplete()
              && r.value.current == o.workflows[id].currentStep == old(o.workflows[id].currentStep) + 1
              && r.value.total == |o.workflows[id].steps|
              && o.workflows[id].steps[r.value.current - 1].result == Some(r.value.result)
  {
    var result := o.ExecuteWorkflowStep(b, id, now, durationMs);
    if result.Err? {
      return Err(result.error);
    }
    if id !in o.workflows {
      return Err(Error.Workflow("workflow not found"));
    }
    var w := o.workflows[id];
    r := Ok(StepReport(result.value, w.IsComplete(), w.currentStep, |w.steps|));
  }

  /** The tools a registry can hold: the seven built-in ones, or another tool known by its name. */
  datatype ToolKind =
    | PromptToolKind | ParallelPromptToolKind | ConsensusToolKind | WorkflowStartToolKind
    | WorkflowStepToolKind | StatusToolKind | ListProvidersToolKind
    | Custom(customName: string)
  {
    /** The name in the tool's definition. */
    function DefinitionName(): string
    {
      match this
      case PromptToolKind => "agent_prompt"
      case ParallelPromptToolKind => "agent_parallel_prompt"
      case ConsensusToolKind => "agent_consensus"
      case WorkflowStartToolKind => "agent_workflow_start"
      case WorkflowStepToolKind => "agent_workflow_step"
      case StatusToolKind => "agent_status"
      case ListProvidersToolKind => "agent_list_providers"
      case Custom(n) => n
    }
  }

  /** The built-in tools in registration order. */
  const DefaultTools: seq<ToolKind> := [PromptToolKind, ParallelPromptToolKind, ConsensusToolKind,
                                        WorkflowStartToolKind, WorkflowStepToolKind, StatusToolKind,
                                        ListProvidersToolKind]

  /** Every tool of `m` is filed under its own definition name. */
  ghost predicate FiledByName(m: map<string, ToolKind>)
  {
    forall name :: name in m ==> m[name].DefinitionName() == name
  }

  /** `m` after the seven built-in tools are registered in order. */
  function WithDefaults(m: map<string, ToolKind>): map<string, ToolKind>
  {
    m[PromptToolKind.DefinitionName() := PromptToolKind]
     [ParallelPromptToolKind.DefinitionName() := ParallelPromptToolKind]
     [ConsensusToolKind.DefinitionName() := ConsensusToolKind]
     [WorkflowStartToolKind.DefinitionName() := WorkflowStartToolKind]
     [WorkflowStepToolKind.DefinitionName() := WorkflowStepToolKind]
     [StatusToolKind.DefinitionName() := StatusToolKind]
     [ListProvidersToolKind.DefinitionName() := ListProvidersToolKind]
  }

  /** Registering the defaults adds exactly the seven built-in names. */
  lemma WithDefaultsKeys(m: map<string, ToolKind>)
    ensures WithDefaults(m).Keys == m.Keys + DefaultToolNames
  {
  }

  /** After registering the defaults, each built-in tool is filed under its own name. */
  lemma WithDefaultsFiled(m: map<string, ToolKind>)
    ensures forall k :: k in DefaultTools ==> WithDefaults(m)[k.DefinitionName()] == k
  {
  }

  /** Registering the defaults leaves every entry under another name alone. */
  lemma WithDefaultsKeepsOthers(m: map<string, ToolKind>)
    ensures forall n :: n in m && n !in DefaultToolNames ==> WithDefaults(m)[n] == m[n]
  {
  }

  /** Registering the defaults keeps every tool under its own definition name. */
  lemma WithDefaultsValid(m: map<string, ToolKind>)
    requires FiledByName(m)
    ensures FiledByName(WithDefaults(m))
  {
  }

  /** The registry: tools keyed by their definition names. */
  class ToolRegistry {
    var tools: map<string, ToolKind>

    /** Every tool is filed under its own definition name. */
    ghost predicate Valid()
      reads this
    {
      FiledByName(tools)
    }

    /** `ToolRegistry::new`: a registry holding the seven built-in tools. */
    constructor ()
      ensures Valid()
      ensures tools.Keys == DefaultToolNames
      ensures forall k :: k in DefaultTools ==> tools[k.DefinitionName()] == k
    {
      tools := map[];
      new;
      RegisterDefaultTools();
      WithDefaultsKeys(map[]);
      WithDefaultsFiled(map[]);
    }

    /** `register_default_tools`: register the seven built-in tools in turn. */
    method RegisterDefaultTools()
      requires Valid()
      modifies this
      ensures Valid()
      ensures tools == WithDefaults(old(tools))
    {
      Register(PromptToolKind);
      Register(ParallelPromptToolKind);
      Register(ConsensusToolKind);
      Register(WorkflowStartToolKind);
      Register(WorkflowStepToolKind);
      Register(StatusToolKind);
      Register(ListProvidersToolKind);
    }

    /** `register`: file `tool` under its definition name, replacing any tool of the same name. */
    method Register(tool: ToolKind)
      requires Valid()
      modifies this
      ensures Valid()
      ensures tools == old(tools)[tool.DefinitionName() := tool]
    {
      tools := tools[tool.DefinitionName() := tool];
    }

    /** `definitions`: the names of the registered tools' definitions, which are the registry's keys. */
    function DefinitionNames(): (names: set<string>)
      reads this
      requires Valid()
      ensures names == tools.Keys
    {
      set n | n in tools :: tools[n].DefinitionName()
    }

    /** The tool `execute` dispatches to for `name`, or `InvalidParams` for an unknown name. */
    function Lookup(name: string): (r: Result<ToolKind>)
      reads this
      requires Valid()
      ensures r.Ok? <==> name in tools
      ensures r.Ok? ==> r.value.DefinitionName() == name
      ensures r.Err? ==> r.error == InvalidParams("unknown tool: " + name)
    {
      if name in tools then Ok(tools[name]) else Err(InvalidParams("unknown tool: " + name))
    }
  }

  /** The names of the built-in tools. */
  const DefaultToolNames: set<string> :=
    {"agent_prompt", "agent_parallel_prompt", "agent_consensus", "agent_workflow_start",
     "agent_workflow_step", "agent_status", "agent_list_providers"}

  /** The built-in tools are filed under exactly the seven built-in names. */
  lemma DefaultToolNamesMatch()
    ensures (set k | k in DefaultTools :: k.DefinitionName()) == DefaultToolNames
  {
    var names := set k | k in DefaultTools :: k.DefinitionName();
    assert DefaultTools[0].DefinitionName() in names;
    assert DefaultTools[1].DefinitionName() in names;
    assert DefaultTools[2].DefinitionName() in names;
    assert DefaultTools[3].DefinitionName() in names;
    assert DefaultTools[4].DefinitionName() in names;
    assert DefaultTools[5].DefinitionName() in names;
    assert DefaultTools[6].DefinitionName() in names;
  }

  /** The seven built-in names are different, so a fresh registry holds seven tools. */
  lemma DefaultToolCount()
    ensures |DefaultToolNames| == 7
  {
    assert "agent_prompt"[6] != "agent_status"[6];
    assert "agent_workflow_start"[6] != "agent_list_providers"[6];
  }
}
