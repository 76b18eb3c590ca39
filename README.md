# embeddenator-agent-mcp orchestration core in Dafny

This project models the orchestration core of `embeddenator-agent-mcp`, an MCP server that
sends prompts to browser-driven AI providers (Claude, Grok, Gemini, ChatGPT, Perplexity,
NotebookLM). The model covers four parts of the source:

- **Provider router** (`router.dfy`, module `Router`). It keeps per-provider health (the run of
  consecutive failures, the last failure time, an average latency) and usage counters. It scores
  providers by priority, task bonus, failure, latency and usage penalties. `select_best` picks the
  first provider of maximal score. `select_multiple` picks the top `count` providers by a stable
  sort on score.
- **Workflow state machine** (`workflow.dfy`, module `Workflows`). A `Workflow` object owns a
  vector of steps, a cursor, an overall state and a context map. Each `WorkflowStep` value has its
  own Pending / Running / Completed / Failed transitions.
- **Orchestrator** (`orchestrator.dfy`, module `Orchestrator`). It covers prompting one provider
  and recording the outcome in the router, prompting several providers in turn, and choosing a
  consensus answer (the longest in UTF-8 bytes, with the last of equally long ones winning). It also covers
  filing workflows and driving one workflow step per call: the not-found, already-complete and
  no-current-step refusals, the human-review pause, the unsupported step kinds, and
  complete-and-advance.
- **Tool layer** (`tools.dfy`, module `Tools`). It covers `parse_provider`, which is
  case-insensitive and has the `openai` and `notebook` aliases, and the argument checks of the
  prompt, parallel, consensus and workflow-start tools. It also covers the workflow-step tool's
  report and the name-keyed tool registry with its seven built-in tools.

The support modules are `errors.dfy`, `text.dfy` and `providers.dfy`:

- `errors.dfy` holds the crate's `Error` enum with `Result` and `Option`.
- `text.dfy` holds ASCII case mapping, the UTF-8 byte length of a string (`str::len`), decimal
  rendering and `join`.
- `providers.dfy` holds the provider enum and its lower-case display names. It also holds the
  catalogue the browser crate exports: `Provider::all()` and the search and large-context
  provider sets. These are passed in as a `Catalog` value.

The modelling conventions are:

- **Objects.** The router, a workflow, the orchestrator and the registry are classes, because
  their fields are updated in place. Health records, usage counters and workflow steps are
  datatypes with value-returning updates. In the source these live by value inside one owner's
  map or vector, so updating the value is updating in place.
- **Scores.** Scores are integers in tenths, so the 0.1 usage factor stays exact.
- **Time and identifiers.** Time is an explicit `now` in milliseconds. Identifiers that the
  source draws from `Uuid::new_v4` are parameters.
- **Browser backend.** The backend is a `Backend` value, used as an oracle. It says:
  - whether a session can be built;
  - whether a provider's login succeeds;
  - what the provider answers (`None` for an error);
  - how long the call takes.

Code and specification disagree in places. The model follows the code:

- `parallel_prompt` records nothing in the router.
- `prompt_provider` records nothing when the session cannot be built or the login fails.
- `execute_workflow_step` never marks a workflow `Failed` and never writes the context map.
- A workflow is not `Completed` exactly when its cursor is at the end:
  - a workflow with no steps stays `Pending`;
  - a step added after completion leaves it `Completed` with the cursor before the end.
  `Workflows.Workflow.Advance` states the exact relation.
- The name mapping of a pinned workflow step has no aliases: `openai` is accepted by the tools
  but not by a pinned step. An unrecognised pin falls back to the router's choice.
- The workflow-start tool ignores a step definition's `provider`.
- `ProviderPreferences::is_disabled` is never consulted when selecting providers.

## Model

| member | source | states |
|---|---|---|
| Router.Ema | src/router.rs:268-273 | the new latency average lies between the old average and the new sample |
| Router.ProviderHealth.IsHealthy | src/router.rs:250-260 | a definition: unhealthy exactly when the failure run is at least three and the last failure is under 300 s old; healthy with no failure time |
| Router.ProviderHealth.RecordSuccess | src/router.rs:263-274 | a success clears the failure run, stamps the success time, keeps the last failure, and seeds or updates the latency average |
| Router.ProviderHealth.RecordFailure | src/router.rs:277-280 | a failure lengthens the failure run by one and stamps the failure time; success time and latency are kept |
| Router.HealthyAfterSuccess | src/router.rs:250-265 | after a success a provider is healthy at every later instant |
| Router.UnhealthyAfterThreeFailures | src/router.rs:250-260 | three failures in a row, the last less than 300 s ago, make a provider unhealthy |
| Router.HealthyAfterCooldown | src/router.rs:250-260 | 300 s after its last failure a provider is healthy again, however long its failure run |
| Router.HealthyBelowThreshold | src/router.rs:250-260 | fewer than three consecutive failures never make a provider unhealthy |
| Router.ProviderStats.CountSuccess | src/router.rs:161-163 | a success adds one to the total and successful counts; the failed count is kept |
| Router.ProviderStats.CountFailure | src/router.rs:171-173 | a failure adds one to the total and failed counts; the successful count is kept |
| Router.ProviderPreferences.Priority | src/router.rs:201-206 | a definition: the priority filed under the provider's lower-case display name, 50 when none is filed |
| Router.ProviderPreferences.IsDisabled | src/router.rs:209-213 | a definition: some disabled entry, lower-cased, equals the provider's display name |
| Router.DefaultPreferences | src/router.rs:216-233 | the default table gives claude 100, chatgpt 90, gemini 80, grok 70, perplexity 60, notebooklm 50 and disables nothing |
| Router.DisabledIgnoresCase | src/router.rs:209-213 | a disabled entry spelled in upper case still disables its provider |
| Router.TaskBonus | src/router.rs:107-134 | a definition: 50 for a search provider on a search task, 30 for a large-context provider on a large-context task, 20 for Claude or ChatGPT on code, 15 for Gemini or Claude on creative work, else 0 |
| Router.ScoreOf | src/router.rs:101-154 | a definition, in tenths: 10·priority + 10·bonus − 100 per consecutive failure − 10 per whole second of average latency − (total requests mod 100) |
| Router.ScoreBounds | src/router.rs:101-154 | no score exceeds priority plus task bonus: every penalty lowers it |
| Router.FailureLowersScore | src/router.rs:136-151 | recording a failure strictly lowers a provider's score, even when the usage counter wraps at 100 |
| Router.FailureRanking | src/router.rs:167-174 | a recorded failure lowers the failing provider's score for every task type and leaves every other provider's score unchanged |
| Router.SortByScore | src/router.rs:80 | the sort's result is a permutation of its input, ordered by descending score with ties in input order |
| Router.ProviderRouter.constructor | src/router.rs:23-29 | a new router has the default preferences and no health or usage history |
| Router.ProviderRouter.WithPreferences | src/router.rs:32-38 | a router built with given preferences has them and no history |
| Router.ProviderRouter.IsHealthy | src/router.rs:93-97 | a definition: a provider with no health record is healthy, otherwise its record decides |
| Router.ProviderRouter.AvailableProviders | src/router.rs:86-90 | a definition: the healthy members of `Provider::all()`, in catalogue order |
| Router.ProviderRouter.HealthyAmong | src/router.rs:86-98 | a provider survives the filter exactly when it is in the list and healthy; a provider with no health record counts as healthy |
| Router.ProviderRouter.HealthyAmongOrdered | src/router.rs:86-91 | filtering keeps the list's relative order and its distinctness |
| Router.ProviderRouter.AvailableInCatalogOrder | src/router.rs:86-91 | the available providers are exactly the healthy catalogue entries, each once, in catalogue order |
| Router.ProviderRouter.BestIsTopRanked | src/router.rs:41-83 | the provider `select_best` may return is exactly the one-element top of the ranking `select_multiple` uses |
| Router.ProviderRouter.FirstBestIsFirstBest | src/router.rs:48-59 | the provider a left-to-right scan keeps, replacing the best only on a strictly higher score, is available, of maximal score, and ahead of every provider of equal score |
| Router.ProviderRouter.SelectBest | src/router.rs:41-60 | `NoProviders("no healthy providers available")` exactly when none is available; otherwise the provider the scan keeps (`FirstBest`): an available provider of maximal score, ties going to the earliest in catalogue order |
| Router.ProviderRouter.Scored | src/router.rs:75-78 | each available provider is paired with its own score, in order |
| Router.ProviderRouter.TopRankedUnique | src/router.rs:75-83 | the ranking is a strict total order, so two top-ranked selections of the same length are equal |
| Router.ProviderRouter.SelectMultiple | src/router.rs:63-83 | `NoProviders` naming the needed and available counts exactly when fewer than `count` are available; otherwise `count` distinct available providers in non-increasing score, each ranked ahead of every provider left out, ties in catalogue order; this is the one selection `TopRanked` names |
| Router.ProviderRouter.ScoredRanking | src/router.rs:80-82 | a prefix of the sorted scored list is a top-ranked selection of the available providers |
| Router.ProviderRouter.RecordSuccess | src/router.rs:157-164 | only the provider's health and usage entries change, by a recorded success; the provider is then healthy and every usage entry stays balanced (total = successful + failed) |
| Router.ProviderRouter.RecordFailure | src/router.rs:167-174 | only the provider's health and usage entries change, by a recorded failure; its score drops for every task type, other scores are unchanged, usage entries stay balanced |
| Router.ProviderRouter.GetStats | src/router.rs:177-179 | every reported usage entry is balanced |
| Router.DefaultSearchPrefersSearchProvider | src/router.rs:325-331 | with default preferences and no history, a search task goes to a search provider whenever an available search provider has priority above 50 |
| Router.FreshRouterHasProviders | src/router.rs:316-322 | with no history every catalogue provider is available, so a general task finds one |
| Workflows.WorkflowStep.Start | src/workflow.rs:204-206 | the step becomes Running and nothing else about it changes |
| Workflows.WorkflowStep.Complete | src/workflow.rs:209-212 | the step becomes Completed with the result stored; nothing else changes |
| Workflows.WorkflowStep.Fail | src/workflow.rs:215-217 | the step becomes Failed with the reason; its result is untouched |
| Workflows.PromptStep | src/workflow.rs:144-157 | a prompt step starts Pending with no result, no pinned provider and no context |
| Workflows.ParallelStep | src/workflow.rs:160-172 | a parallel step starts Pending with the given providers |
| Workflows.ConsensusStep | src/workflow.rs:175-187 | a consensus step starts Pending and needs two answers |
| Workflows.ReviewStep | src/workflow.rs:190-201 | a review step starts Pending with the given prompt |
| Workflows.RunThenComplete | src/workflow.rs:204-212 | starting then completing a step leaves it Completed with the result and its configuration unchanged |
| Workflows.Workflow.constructor | src/workflow.rs:36-49 | a new workflow is Pending with no steps, cursor 0 and an empty context |
| Workflows.Workflow.AddStep | src/workflow.rs:52-55 | the step is appended; cursor, state, context and the current step are unchanged |
| Workflows.Workflow.Current | src/workflow.rs:58-60 | the step under the cursor exactly when the cursor is in range, `None` otherwise |
| Workflows.Workflow.Advance | src/workflow.rs:68-79 | refused with `InvalidState("workflow already complete")`, changing nothing, exactly when the cursor is at the end; otherwise the cursor moves by one, the workflow becomes Completed on reaching the end, and the cursor never passes the end |
| Workflows.Workflow.IsComplete | src/workflow.rs:88-90 | a definition: the workflow is Completed or Failed |
| Workflows.Workflow.Fail | src/workflow.rs:82-85 | the workflow is Failed with the reason and so complete; steps, cursor and context are untouched |
| Workflows.Workflow.SetContext | src/workflow.rs:93-96 | the key then reads back the value; every other key keeps its value |
| Workflows.Workflow.GetContext | src/workflow.rs:99-101 | a value exactly when the key is bound, and then the bound value |
| Workflows.AdvanceScenario | src/workflow.rs:338-348 | with two steps, the cursor is 1 after one advance and the workflow is complete after two |
| Workflows.EmptyAdvanceScenario | src/workflow.rs:68-71 | advancing a workflow with no steps is refused with `InvalidState` |
| Orchestrator.Outcome | src/orchestrator.rs:88-92 | prompting one provider succeeds exactly when its login succeeds and it answers, and then carries its answer |
| Orchestrator.Responses | src/orchestrator.rs:123-136 | one outcome per requested provider, in the order requested |
| Orchestrator.Successes | src/orchestrator.rs:160-163 | only successful responses are kept, in order; if every outcome succeeded none is lost |
| Orchestrator.SuccessesAppend | src/orchestrator.rs:160-163 | the success filter distributes over concatenation, so it is fixed by its effect on one entry |
| Orchestrator.SuccessesOfOne | src/orchestrator.rs:160-163 | a single success is kept with its response and a single failure is dropped |
| Text.Utf8LenAppend | src/orchestrator.rs:186 | the byte length of a concatenation is the sum of the byte lengths |
| Text.Utf8LenAscii | src/orchestrator.rs:186 | an ASCII string has as many bytes as characters |
| Orchestrator.LastLongest | src/orchestrator.rs:184-187 | the chosen response is of maximal length in UTF-8 bytes and later responses are strictly shorter |
| Orchestrator.LastLongestUnique | src/orchestrator.rs:184-187 | at most one position is the last longest response |
| Orchestrator.FindConsensus | src/orchestrator.rs:181-204 | the consensus text is the last response of greatest byte length, or empty when there are none; every response is reported in order, marked selected exactly when it comes from the chosen provider |
| Orchestrator.ConsensusIsLongest | src/orchestrator.rs:181-204 | the consensus has at least as many bytes as every response and is itself a selected response |
| Orchestrator.ConsensusCountsBytes | src/orchestrator.rs:186 | length is counted in bytes: a one-character, two-byte answer ties with a two-character ASCII answer and, coming last, is the consensus |
| Orchestrator.ProviderFromName | src/orchestrator.rs:241-251 | a recognised pinned name is the lower-case display name of the provider it yields |
| Orchestrator.ProviderFromNameComplete | src/orchestrator.rs:241-251 | a pinned name is recognised as a provider exactly when its lower-case form is that provider's display name |
| Orchestrator.ParsedProviders | src/orchestrator.rs:272-283 | only recognised names yield providers; when every name is recognised none is dropped |
| Orchestrator.ParsedProvidersAppend | src/orchestrator.rs:272-283 | the name filter distributes over concatenation, so it is fixed by its effect on one name |
| Orchestrator.ParsedProvidersOfOne | src/orchestrator.rs:272-283 | a single recognised name yields its provider and an unrecognised one is dropped |
| Orchestrator.ParallelResponses | src/orchestrator.rs:287-297 | each success becomes an unselected response with the provider's name and text, in order |
| Orchestrator.ParallelStepResult | src/orchestrator.rs:285-311 | a parallel step's result names no single provider and carries the successful responses |
| Orchestrator.PromptResult | src/orchestrator.rs:77-93 | `prompt_provider` succeeds exactly when the session opens, the login succeeds and the provider answers; without a session it is the launch error |
| Orchestrator.HealthAfter | src/orchestrator.rs:94-101 | prompting changes no provider's health record but the prompted one's, and records it once the login succeeded |
| Orchestrator.StatsAfter | src/orchestrator.rs:94-101 | prompting changes no provider's usage record but the prompted one's, whose total grows by one once the login succeeded |
| Orchestrator.PromptRecorded | src/orchestrator.rs:94-101 | after an authenticated call the provider is healthy if it answered, and its failure run is one longer if it did not |
| Orchestrator.BestTarget | src/orchestrator.rs:68-73 | `prompt` asks no provider exactly when none is available |
| Orchestrator.BestPromptOutcome | src/orchestrator.rs:68-74 | `prompt` gives `NoProviders` when none is available, and any answer comes from the scan's first best provider |
| Orchestrator.ConsensusOutcomeFacts | src/orchestrator.rs:144-178 | too few available providers give `NoProviders`; a consensus needs a launched session and the top-ranked selection, and holds at least `min` responses |
| Orchestrator.PinnedProvider | src/orchestrator.rs:240-252 | a pinned name yields the provider whose display name is its lower-case form |
| Orchestrator.StepOutcomeFacts | src/orchestrator.rs:239-330 | a step result carries the duration; a prompt step's result names the prompted provider, the scan's first best when unpinned, and with none available the step fails with `NoProviders`; a consensus step lists at least `min` responses |
| Orchestrator.HeldOutcome | src/orchestrator.rs:331-341 | a review, conditional or tool step yields a `Workflow` error |
| Orchestrator.HoldStep | src/orchestrator.rs:331-341 | a review step is set waiting for a human and pauses the workflow; a conditional or tool step is refused with the workflow unchanged; the cursor and context never move |
| Orchestrator.AgentOrchestrator.constructor | src/orchestrator.rs:31-38 | a new orchestrator has a fresh default router and no workflows |
| Orchestrator.AgentOrchestrator.PromptProvider | src/orchestrator.rs:77-105 | the result is `PromptResult`, the provider's outcome or a launch error; the router's health and usage maps become `HealthAfter` and `StatsAfter`: once logged in, exactly one success or one failure is recorded for that provider, and nothing is recorded otherwise |
| Orchestrator.AgentOrchestrator.Prompt | src/orchestrator.rs:68-74 | the result is exactly `BestPromptOutcome` on the router before the call: `NoProviders` when none is available, else `prompt_provider`'s result for the scan's first best provider, whose success or failure is recorded in the router as `prompt_provider` records it |
| Orchestrator.AgentOrchestrator.ParallelPrompt | src/orchestrator.rs:111-141 | a launch error, or one outcome per provider in input order, with login failures kept as error entries |
| Orchestrator.AgentOrchestrator.ConsensusPrompt | src/orchestrator.rs:144-178 | the result is exactly `ConsensusOutcome`: `NoProviders` when fewer than `max(min, 3)` are available; the launch error; `NoProviders` when fewer than `min` of the top-ranked providers answer; otherwise the consensus of their answers |
| Orchestrator.AgentOrchestrator.StartWorkflow | src/orchestrator.rs:207-212 | the workflow is filed under its id, replacing any workflow there; the map grows by one unless the id was taken |
| Orchestrator.AgentOrchestrator.Status | src/orchestrator.rs:359-368 | the status lists exactly the healthy catalogue providers, counts the workflows and reports balanced usage records |
| Orchestrator.AgentOrchestrator.RunStep | src/orchestrator.rs:239-330 | the result is exactly `StepOutcome` on the router before the call: a pinned recognised provider is prompted directly, otherwise the router's first best; parallel steps prompt the recognised names in order; consensus steps take `ConsensusOutcome`; only prompt steps touch the router, recording the call as `prompt_provider` does |
| Orchestrator.AgentOrchestrator.ExecuteWorkflowStep | src/orchestrator.rs:215-350 | the result is exactly `ExecuteOutcome` before the call: an unknown id, a complete workflow or a missing current step are refused with their errors and no change; otherwise the step is driven as `DriveStep` states, with the step's outcome as result and the router updated as the prompt made records it; no other workflow changes and the map keeps its ids |
| Orchestrator.AgentOrchestrator.DriveStep | src/orchestrator.rs:232-349 | the result is exactly `DriveOutcome` for the step's configuration on the router before the call; the step is started and the workflow set Running; a review step pauses the workflow and waits; conditional and tool steps, and provider errors, leave the cursor in place; a success completes the step with its result and advances the cursor, completing the workflow at the last step; the context never changes |
| Orchestrator.AgentOrchestrator.RunAndAdvance | src/orchestrator.rs:239-349 | the result is exactly the step's `StepOutcome`; a provider error leaves the workflow as it was; a result completes the current step with it and advances the cursor, completing the workflow at the last step; the context is untouched |
| Orchestrator.CompleteAndAdvance | src/orchestrator.rs:344-347 | the current step is completed with the result, the cursor moves past it, and the workflow becomes Completed exactly when that was the last step |
| Tools.ParseProvider | src/tools.rs:594-604 | an unknown name is refused with `InvalidParams` naming it |
| Tools.ParseProviderSpec | src/tools.rs:594-603 | a name parses to a provider exactly when its lower-case form is the provider's display name or alias |
| Tools.ParseName | src/tools.rs:594-601 | every display name parses back to its provider |
| Tools.ParseUpperName | src/tools.rs:595 | parsing ignores case: an upper-case display name parses too |
| Tools.PinnedNamesParse | src/tools.rs:594-601 | every name a pinned workflow step recognises parses to the same provider in the tools |
| Tools.AliasOnlyInTools | src/tools.rs:599 | `openai` parses in the tools but a step pinned to it is not recognised |
| Tools.ValidProviders | src/tools.rs:224-228 | only parseable names yield providers; when every name parses none is dropped |
| Tools.ValidProvidersAppend | src/tools.rs:224-228 | the parse filter distributes over concatenation, so it is fixed by its effect on one name |
| Tools.ValidProvidersOfOne | src/tools.rs:224-228 | a single parseable name yields its provider and an unparseable one is dropped |
| Tools.NamesAreValid | src/tools.rs:224-228 | a list of display names keeps every provider, in order |
| Tools.CheckParallelProviders | src/tools.rs:224-232 | the parallel check passes exactly when at least two names parse, and then yields them; otherwise `InvalidParams` |
| Tools.ListedProvidersParse | src/tools.rs:564-571 | every identifier the provider listing shows parses, to the six providers in listing order |
| Tools.ConsensusMinimum | src/tools.rs:300 | the minimum defaults to 3 and is otherwise the argument |
| Tools.PromptTool | src/tools.rs:154-176 | an unparseable provider is refused with `InvalidParams` before any call; a parseable one is prompted directly, with `PromptResult` as result and the router updated as `prompt_provider` records; with no provider named, the result and router updates are those of `prompt` |
| Tools.ParallelPromptTool | src/tools.rs:216-237 | fewer than two parseable providers are refused with `InvalidParams`; otherwise the parseable ones are prompted in order |
| Tools.ConsensusTool | src/tools.rs:292-305 | the result is exactly `ConsensusOutcome` with `min` defaulting to 3: errors for too few available providers, a failed launch or too few answers, and otherwise the consensus of the top `max(min, 3)` ranked providers' answers |
| Tools.StepFromDef | src/tools.rs:399-409 | `prompt` yields an unpinned prompt step, `parallel` a parallel step over the given providers or none, `consensus` a consensus step needing two answers, `review` a review step with the message as prompt, each pending, well-formed and with no result; any other type is refused with `InvalidParams` naming it |
| Tools.BuildStepsOk | src/tools.rs:398-411 | the build succeeds exactly when every type is known, and then gives one step per definition in order |
| Tools.BuildStepsFirstError | src/tools.rs:398-411 | a failed build reports the first definition of unknown type |
| Tools.PrefixErrorSticks | src/tools.rs:398-409 | once a prefix of the definitions fails, the whole build fails with the same error |
| Tools.WorkflowStartTool | src/tools.rs:388-413 | an unknown step type files no workflow; otherwise a fresh Pending workflow holding the built steps, cursor 0 and empty context is filed under its id |
| Tools.WorkflowStepTool | src/tools.rs:452-475 | an error of the step's execution, such as `InvalidState` for a finished workflow, is passed on unchanged; a success is reported with the executed step's result, the workflow's completion, its advanced cursor and its step count |
| Tools.WithDefaultsKeys | src/tools.rs:80-88 | registering the defaults adds exactly the seven built-in names |
| Tools.WithDefaultsFiled | src/tools.rs:80-88 | after registering the defaults each built-in tool is filed under its own name |
| Tools.WithDefaultsKeepsOthers | src/tools.rs:80-88 | registering the defaults leaves entries under other names alone |
| Tools.WithDefaultsValid | src/tools.rs:80-94 | registering the defaults keeps every tool under its own definition name |
| Tools.DefaultToolNamesMatch | src/tools.rs:80-88 | the built-in tools' definition names are exactly the seven built-in names |
| Tools.DefaultToolCount | src/tools.rs:80-88 | the seven built-in names are distinct, so a fresh registry holds seven tools |
| Tools.ToolRegistry.constructor | src/tools.rs:69-77 | a new registry holds exactly the seven built-in tools, each under its own name |
| Tools.ToolRegistry.RegisterDefaultTools | src/tools.rs:80-88 | the seven built-in tools are registered in turn, keeping every tool filed under its own name |
| Tools.ToolRegistry.Register | src/tools.rs:91-94 | the tool is filed under its definition name, replacing any earlier tool of that name |
| Tools.ToolRegistry.DefinitionNames | src/tools.rs:97-99 | the definition names are exactly the registry's keys |
| Tools.ToolRegistry.Lookup | src/tools.rs:102-109 | a registered name finds the tool defined under it; an unknown name is refused with `InvalidParams` naming it |

## Left out

- Router.ProviderRouter.constructor: `Provider::all()` belongs to the browser crate, which is not part of this model. The constructors, `Router.ProviderRouter.WithPreferences` and `Orchestrator.AgentOrchestrator.constructor` require that the catalogue lists each provider once, as the six-entry `Provider::all()` does. `SelectMultiple`'s distinct selection rests on that assumption.

- The browser backend (`WebPuppet`: building a session, login, prompting, closing) is a foreign crate. It is the `Backend` oracle. The error detail strings it would report are replaced by fixed texts.
- Async execution, `Arc`, `RwLock` and tokio are concurrency plumbing. The orchestrator is modelled sequentially, owning its router and workflow map.
- `Instant::now`, `elapsed` and `Utc::now` are clock reads. `now` and step durations are parameters, and the `created_at` and `updated_at` timestamps are left out.
- `Uuid::new_v4` draws random identifiers. Workflow and step ids are parameters of the constructors and of `Tools.WorkflowStartTool`.
- Router.Ema: the f64 average `avg * 0.9 + latency * 0.1` truncated to whole milliseconds is modelled as the integer `(9 * avg + latency) / 10`. The two can differ by one millisecond through float rounding.
- Router.ScoreOf: scores are f64 in the source and exact integer tenths here. Float rounding can order near-ties differently. For example, Perplexity with priority 60, two failures and a usage total ending in 82 scores 31.799999999999997 in f64, while NotebookLM with priority 50, one failure, an 8 s average latency and a usage total ending in 2 scores 31.8. Both are 318 tenths here, so the tie goes to Perplexity by catalogue order, where the source picks NotebookLM.
- Router.ScoreOf: the failure run is a `u32` and the penalty `consecutive_failures * 10` is computed in `u32`, so it overflows after about 4.3 × 10^8 consecutive failures (more than 429,496,729). It panics in a debug build and wraps in a release build. Here the run and the penalty are unbounded naturals. The `u32` run itself overflows only at 2^32 failures, and the `u64` request counters at 2^64 requests.
- Tools.ParseProvider: `to_lowercase` is modelled on ASCII letters only. Rust's Unicode lower-casing also maps some non-ASCII characters to ASCII letters, such as U+212A KELVIN SIGN to `k`. So `NOTEBOO\u{212A}LM` parses to NotebookLM in the source and is refused here.
- Orchestrator.ProviderFromName: the same ASCII-only lower-casing means that a step pinned to `NOTEBOO\u{212A}LM` prompts NotebookLM in the source, while here it is unrecognised and falls back to the router's choice.
- Router.ProviderPreferences.IsDisabled: the same ASCII-only lower-casing means that a disabled entry spelled with U+212A (such as `NOTEBOO\u{212A}LM`) names NotebookLM in the source but no provider here.
- Orchestrator.ConsensusOutcome: when `max(min, 3)` providers are available, `select_multiple` always returns a ranking. So the branch with no top-ranked selection cannot be taken. Here it gives the same `NoProviders` error as too few providers.
- Provider display names are assumed to equal the lower-case names the source matches against. The display strings are not part of this model.
- `ProviderPreferences.settings` is never read by the core, so it is left out.
- Step, workflow and result `metadata` maps are left out. `agreement_score` is a constant placeholder, and `ProviderResponse.confidence` is always `None`; both are left out.
- `OrchestratorConfig` is left out. The headless flag only configures the browser backend, and the core never reads the timeout or the concurrency limit.
- `AgentOrchestrator::get_workflow` returns a clone of a map entry. In `Tools.WorkflowStepTool` it is a lookup in the orchestrator's map.
- `ToolContext` is left out: the orchestrator is passed directly.
- Tool output formatting is Markdown text and is left out, as are the JSON input schemas, serde argument decoding and the `StatusTool` and `ListProvidersTool` output. `Tools.ListedProvidersParse` covers the listing's identifiers.
- The tools are modelled as separate methods. `ToolRegistry::execute` dispatch is `Tools.ToolRegistry.Lookup` followed by the tool's method.
- `Orchestrator.ParallelStepResult` does not state the Markdown of the step's `output`. It is the separator-joined text in `Orchestrator.ParallelOutput`.
- `Router.ProviderRouter.SelectBest` has no "no suitable provider" error. The first available provider always sets the running best, so that error cannot occur.
- `WorkflowStep` updates are value updates of the step held in the workflow's `steps` sequence, which matches the source's in-place update through `current_mut`.
- Conditional and tool step configurations are kept as data only. The orchestrator refuses to run them, as the source does.
- The JSON-RPC server, protocol types, CLI and logging are outside the core.
