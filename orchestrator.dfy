/**
 * The agent orchestrator: sends prompts to providers chosen by the router, fans a prompt out to
 * several providers, builds a consensus answer, and drives workflows one step at a time.
 */
module Orchestrator {
  import opened Errors
  import opened Text
  import opened Providers
  import opened Router
  import opened Workflows

  /**
   * The browser backend, as an oracle: whether a browser session can be built, whether a
   * provider's login succeeds, what a provider answers to a message (`None` for an error),
   * and how long a provider call takes in milliseconds.
   */
  datatype Backend = Backend(launches: bool, authenticates: Provider -> bool,
                             reply: (Provider, string) -> Option<string>, latencyMs: Provider -> nat)

  /** A provider's answer. */
  datatype PromptResponse = PromptResponse(provider: Provider, text: string)

  /** The answer picked as consensus, and every response with the picked ones marked. */
  datatype ConsensusResult = ConsensusResult(consensusText: string, responses: seq<ProviderResponse>)

  /** What the orchestrator reports about itself. */
  datatype OrchestratorStatus = OrchestratorStatus(availableProviders: seq<Provider>, activeWorkflows: nat,
                                                   providerStats: map<Provider, ProviderStats>)

  /** What a failure to build a browser session reports. */
  const LaunchError := Error.Provider("browser launch failed")

  /** Authenticating and prompting one provider in an open browser session. */
  function Outcome(b: Backend, p: Provider, message: string): (r: Result<PromptResponse>)
    ensures r.Ok? <==> b.authenticates(p) && b.reply(p, message).Some?
    ensures r.Ok? ==> r.value == PromptResponse(p, b.reply(p, message).value)
    ensures r.Err? ==> r.error.Provider?
  {
    if !b.authenticates(p) then Err(Error.Provider("authentication failed"))
    else match b.reply(p, message)
      case Some(text) => Ok(PromptResponse(p, text))
      case None => Err(Error.Provider("prompt failed"))
  }

  /** One outcome per provider, in the order given. */
  function Responses(b: Backend, message: string, ps: seq<Provider>): (r: seq<(Provider, Result<PromptResponse>)>)
    ensures |r| == |ps|
    ensures forall i :: 0 <= i < |ps| ==> r[i] == (ps[i], Outcome(b, ps[i], message))
  {
    seq(|ps|, i requires 0 <= i < |ps| => (ps[i], Outcome(b, ps[i], message)))
  }

  /** The successful responses, in order (the `filter_map` over `r.ok()`). */
  function Successes(results: seq<(Provider, Result<PromptResponse>)>): (s: seq<(Provider, PromptResponse)>)
    ensures |s| <= |results|
    ensures forall x :: x in s ==> (x.0, Ok(x.1)) in results
    ensures (forall i :: 0 <= i < |results| ==> results[i].1.Ok?) ==> |s| == |results|
  {
    if results == [] then []
    else
      var head := match results[0].1
        case Ok(resp) => [(results[0].0, resp)]
        case Err(_) => [];
      assert forall x :: x in Successes(results[1..]) ==> (x.0, Ok(x.1)) in results[1..];
      head + Successes(results[1..])
  }

  /** `Successes` keeps an entry exactly when it is a success: it distributes over concatenation... */
  lemma {:induction false} SuccessesAppend(a: seq<(Provider, Result<PromptResponse>)>, b: seq<(Provider, Result<PromptResponse>)>)
    ensures Successes(a + b) == Successes(a) + Successes(b)
  {
    if a == [] {
      assert a + b == b;
    } else {
      assert (a + b)[0] == a[0];
      assert (a + b)[1..] == a[1..] + b;
      SuccessesAppend(a[1..], b);
    }
  }

  /** ... and keeps a single success, drops a single failure. */
  lemma SuccessesOfOne(p: Provider, outcome: Result<PromptResponse>)
    ensures Successes([(p, outcome)]) == if outcome.Ok? then [(p, outcome.value)] else []
  {
    assert [(p, outcome)][1..] == [];
  }

  /**
   * `k` is the last response of greatest length: `max_by_key` over `text.len()`, which counts
   * UTF-8 bytes, keeps the last of equal maxima.
   */
  ghost predicate IsLastLongest(rs: seq<(Provider, PromptResponse)>, k: int)
  {
    && 0 <= k < |rs|
    && (forall j :: 0 <= j < |rs| ==> Utf8Len(rs[j].1.text) <= Utf8Len(rs[k].1.text))
    && (forall j :: k < j < |rs| ==> Utf8Len(rs[j].1.text) < Utf8Len(rs[k].1.text))
  }

  /** At most one position is the last longest. */
  lemma LastLongestUnique(rs: seq<(Provider, PromptResponse)>, k1: int, k2: int)
    requires IsLastLongest(rs, k1) && IsLastLongest(rs, k2)
    ensures k1 == k2
  {
    assert Utf8Len(rs[k1].1.text) == Utf8Len(rs[k2].1.text);
  }

  /** Position of the consensus answer: a left-to-right scan replacing the best on `>=`. */
  function LastLongest(rs: seq<(Provider, PromptResponse)>): (k: nat)
    requires |rs| > 0
    ensures IsLastLongest(rs, k)
    decreases |rs|
  {
    if |rs| == 1 then 0
    else
      var k := LastLongest(rs[..|rs| - 1]);
      LastLongestStep(rs, k);
      if Utf8Len(rs[|rs| - 1].1.text) >= Utf8Len(rs[k].1.text) then |rs| - 1 else k
  }

  /** Scanning one more response: it becomes the last longest when it is at least as long. */
  lemma LastLongestStep(rs: seq<(Provider, PromptResponse)>, k: nat)
    requires |rs| > 1 && IsLastLongest(rs[..|rs| - 1], k)
    ensures IsLastLongest(rs, if Utf8Len(rs[|rs| - 1].1.text) >= Utf8Len(rs[k].1.text) then |rs| - 1 else k)
  {
    var n := |rs| - 1;
    var pre := rs[..n];
    var len := Utf8Len(rs[k].1.text);
    if Utf8Len(rs[n].1.text) >= len {
      forall j | 0 <= j < |rs|
        ensures Utf8Len(rs[j].1.text) <= Utf8Len(rs[n].1.text)
      {
        if j < n {
          assert pre[j] == rs[j];
        }
      }
    } else {
      forall j | 0 <= j < |rs|
        ensures Utf8Len(rs[j].1.text) <= len
        ensures k < j ==> Utf8Len(rs[j].1.text) < len
      {
        if j < n {
          assert pre[j] == rs[j];
        }
      }
    }
  }

  /**
   * `find_consensus`: the longest answer in bytes (the last of equally long ones) is the consensus;
   * every response is reported in order, marked selected exactly when it comes from the chosen provider.
   */
  function FindConsensus(rs: seq<(Provider, PromptResponse)>): (c: ConsensusResult)
    ensures |c.responses| == |rs|
    ensures forall i :: 0 <= i < |rs| ==> c.responses[i].provider == Name(rs[i].0) && c.responses[i].text == rs[i].1.text
    ensures rs == [] ==> c.consensusText == ""
    ensures rs != [] ==> exists k :: IsLastLongest(rs, k) && c.consensusText == rs[k].1.text
                                  && forall i :: 0 <= i < |rs| ==> (c.responses[i].selected <==> rs[i].0 == rs[k].0)
  {
    if rs == [] then ConsensusResult("", [])
    else
      var k := LastLongest(rs);
      ConsensusResult(rs[k].1.text,
                      seq(|rs|, i requires 0 <= i < |rs| => ProviderResponse(Name(rs[i].0), rs[i].1.text, rs[i].0 == rs[k].0)))
  }

  /** The consensus answer has at least as many bytes as every response and is one of them. */
  lemma ConsensusIsLongest(rs: seq<(Provider, PromptResponse)>)
    requires rs != []
    ensures forall i :: 0 <= i < |rs| ==> Utf8Len(rs[i].1.text) <= Utf8Len(FindConsensus(rs).consensusText)
    ensures exists i :: 0 <= i < |rs| && FindConsensus(rs).consensusText == rs[i].1.text && FindConsensus(rs).responses[i].selected
  {
    var k := LastLongest(rs);
    var c := FindConsensus(rs);
    assert c.consensusText == rs[k].1.text;
    assert c.responses[k].selected;
  }

  /**
   * Length is measured in bytes, not characters: "\U{E9}" is one character but two bytes, so it
   * ties with "ab" and, coming last, is the consensus.
   */
  lemma ConsensusCountsBytes()
    ensures FindConsensus([(Claude, PromptResponse(Claude, "ab")), (Grok, PromptResponse(Grok, "\U{E9}"))]).consensusText == "\U{E9}"
  {
    assert Utf8Len("ab") == 2 by { assert "ab"[1..] == "b"; assert "b"[1..] == ""; }
    assert Utf8Len("\U{E9}") == 2 by { assert "\U{E9}"[1..] == ""; }
  }

  /** A provider name as a pinned step names it: lower-cased, the six canonical names and no aliases. */
  function ProviderFromName(s: string): (r: Option<Provider>)
    ensures r.Some? ==> Name(r.value) == ToLower(s)
  {
    match ToLower(s)
    case "claude" => Some(Claude)
    case "grok" => Some(Grok)
    case "gemini" => Some(Gemini)
    case "chatgpt" => Some(ChatGpt)
    case "perplexity" => Some(Perplexity)
    case "notebooklm" => Some(NotebookLm)
    case _ => None
  }

  /** A name is recognised exactly when its lower-case form is a provider's canonical name. */
  lemma ProviderFromNameComplete(s: string, p: Provider)
    ensures ProviderFromName(s) == Some(p) <==> ToLower(s) == Name(p)
  {
    if ToLower(s) == Name(p) {
      match p
      case Claude =>
      case Grok =>
      case Gemini =>
      case ChatGpt =>
      case Perplexity =>
      case NotebookLm =>
    }
  }

  /** The recognised provider names of a parallel step, in order; unknown names are dropped. */
  function ParsedProviders(names: seq<string>): (ps: seq<Provider>)
    ensures |ps| <= |names|
    ensures forall p :: p in ps ==> exists n :: n in names && ProviderFromName(n) == Some(p)
    ensures (forall n :: n in names ==> ProviderFromName(n).Some?) ==> |ps| == |names|
  {
    if names == [] then []
    else
      assert forall p :: p in ParsedProviders(names[1..]) ==> exists n :: n in names[1..] && ProviderFromName(n) == Some(p);
      Recognised(names[0]) + ParsedProviders(names[1..])
  }

  /** The provider a name is recognised as, as a list of at most one. */
  function Recognised(n: string): (ps: seq<Provider>)
    ensures ps == if ProviderFromName(n).Some? then [ProviderFromName(n).value] else []
  {
    match ProviderFromName(n) case Some(p) => [p] case None => []
  }

  /** `ParsedProviders` keeps a name exactly when it is recognised: it distributes over concatenation... */
  lemma {:induction false} ParsedProvidersAppend(a: seq<string>, b: seq<string>)
    ensures ParsedProviders(a + b) == ParsedProviders(a) + ParsedProviders(b)
  {
    if a == [] {
      assert a + b == b;
    } else {
      assert (a + b)[0] == a[0];
      assert (a + b)[1..] == a[1..] + b;
      ParsedProvidersAppend(a[1..], b);
    }
  }

  /** ... and maps a single name to its provider, or drops it. */
  lemma ParsedProvidersOfOne(n: string)
    ensures ParsedProviders([n]) == if ProviderFromName(n).Some? then [ProviderFromName(n).value] else []
  {
    assert [n][1..] == [];
  }

  /** The responses of a parallel step: each success as an unselected response. */
  function ParallelResponses(rs: seq<(Provider, PromptResponse)>): (out: seq<ProviderResponse>)
    ensures |out| == |rs|
    ensures forall i :: 0 <= i < |rs| ==> out[i] == ProviderResponse(Name(rs[i].0), rs[i].1.text, false)
  {
    seq(|rs|, i requires 0 <= i < |rs| => ProviderResponse(Name(rs[i].0), rs[i].1.text, false))
  }

  /** The output text of a parallel step: each response headed by its provider, separated by rules. */
  function ParallelOutput(rs: seq<ProviderResponse>): string
  {
    Join(seq(|rs|, i requires 0 <= i < |rs| => "**" + rs[i].provider + "**:\n" + rs[i].text), "\n\n---\n\n")
  }

  /** The step result of a parallel step over `results`. */
  function ParallelStepResult(results: seq<(Provider, Result<PromptResponse>)>, durationMs: nat): (r: StepResult)
    ensures r.provider == None && r.responses == Some(ParallelResponses(Successes(results)))
    ensures r.durationMs == durationMs
  {
    var responses := ParallelResponses(Successes(results));
    StepResult(ParallelOutput(responses), None, Some(responses), durationMs)
  }

  /** What `prompt_provider` returns for `p`: the launch error when no session opens, else the provider's outcome. */
  function PromptResult(b: Backend, p: Provider, message: string): (r: Result<PromptResponse>)
    ensures r.Ok? <==> b.launches && b.authenticates(p) && b.reply(p, message).Some?
    ensures r.Ok? ==> r.value.provider == p
    ensures !b.launches ==> r == Err(LaunchError)
  {
    if b.launches then Outcome(b, p, message) else Err(LaunchError)
  }

  /**
   * The health records after prompting `target` with `message`, if a provider was prompted: an
   * authenticated call records a success or a failure for that provider, and nothing else changes.
   */
  function HealthAfter(b: Backend, target: Option<Provider>, message: string, now: nat,
                       health: map<Provider, ProviderHealth>): (h: map<Provider, ProviderHealth>)
    ensures forall q :: (target.None? || q != target.value) ==> (q in h <==> q in health) && (q in h ==> h[q] == health[q])
    ensures target.Some? && b.launches && b.authenticates(target.value) ==> target.value in h
  {
    match target
    case None => health
    case Some(p) =>
      var h0 := if p in health then health[p] else NoHealth;
      if !(b.launches && b.authenticates(p)) then health
      else if b.reply(p, message).Some? then health[p := h0.RecordSuccess(b.latencyMs(p), now)]
      else health[p := h0.RecordFailure(now)]
  }

  /** The usage records after prompting `target` with `message`: an authenticated call counts one request. */
  function StatsAfter(b: Backend, target: Option<Provider>, message: string,
                      stats: map<Provider, ProviderStats>): (s: map<Provider, ProviderStats>)
    ensures forall q :: (target.None? || q != target.value) ==> (q in s <==> q in stats) && (q in s ==> s[q] == stats[q])
    ensures target.Some? && b.launches && b.authenticates(target.value) ==>
              && target.value in s
              && s[target.value].totalRequests
                 == (if target.value in stats then stats[target.value] else NoStats).totalRequests + 1
  {
    match target
    case None => stats
    case Some(p) =>
      var s0 := if p in stats then stats[p] else NoStats;
      if !(b.launches && b.authenticates(p)) then stats
      else if b.reply(p, message).Some? then stats[p := s0.CountSuccess()]
      else stats[p := s0.CountFailure()]
  }

  /** An authenticated prompt that succeeds leaves its provider healthy; one that fails extends its failure run. */
  lemma PromptRecorded(b: Backend, p: Provider, message: string, now: nat, health: map<Provider, ProviderHealth>)
    requires b.launches && b.authenticates(p)
    ensures PromptResult(b, p, message).Ok? ==> HealthAfter(b, Some(p), message, now, health)[p].IsHealthy(now)
    ensures PromptResult(b, p, message).Err? ==>
              HealthAfter(b, Some(p), message, now, health)[p].consecutiveFailures
              == (if p in health then health[p] else NoHealth).consecutiveFailures + 1
  {
    var h0 := if p in health then health[p] else NoHealth;
    if PromptResult(b, p, message).Ok? {
      HealthyAfterSuccess(h0, b.latencyMs(p), now, now);
    }
  }

  /** The provider `prompt` asks: the router's first best for a general task, if any is available. */
  function BestTarget(rt: ProviderRouter, now: nat): (p: Option<Provider>)
    reads rt
    ensures p.None? <==> rt.AvailableProviders(now) == []
  {
    var avail := rt.AvailableProviders(now);
    if avail == [] then None else Some(rt.FirstBest(avail, General))
  }

  /** What `prompt` returns: `NoProviders` when none is available, else what its best provider gives. */
  function BestPromptOutcome(rt: ProviderRouter, b: Backend, message: string, now: nat): (r: Result<PromptResponse>)
    reads rt
    ensures rt.AvailableProviders(now) == [] ==> r == Err(NoProviders("no healthy providers available"))
    ensures r.Ok? ==> rt.AvailableProviders(now) != [] && r.value.provider == rt.FirstBest(rt.AvailableProviders(now), General)
  {
    match BestTarget(rt, now)
    case None => Err(NoProviders("no healthy providers available"))
    case Some(p) => PromptResult(b, p, message)
  }

  /**
   * What `consensus_prompt` returns: too few available providers, a browser that does not launch,
   * or too few successes among the top-ranked providers are errors; otherwise the consensus of
   * the successes.
   */
  ghost function ConsensusOutcome(rt: ProviderRouter, b: Backend, message: string, minProviders: nat, now: nat)
    : (r: Result<ConsensusResult>)
    reads rt
  {
    var count := Max(minProviders, 3);
    var avail := rt.AvailableProviders(now);
    var tooFew := Err(NoProviders("need " + NatToString(count) + " providers but only "
                                  + NatToString(|avail|) + " available"));
    if |avail| < count then tooFew
    else match rt.TopRanked(count, General, now)
      case None => tooFew
      case Some(chosen) =>
        if !b.launches then Err(LaunchError)
        else
          var rs := Successes(Responses(b, message, chosen));
          if |rs| < minProviders
          then Err(NoProviders("only " + NatToString(|rs|) + " providers responded, need " + NatToString(minProviders)))
          else Ok(FindConsensus(rs))
  }

  /** A consensus comes from a launched session over the top-ranked providers and holds at least `minProviders` responses. */
  lemma ConsensusOutcomeFacts(rt: ProviderRouter, b: Backend, message: string, minProviders: nat, now: nat)
    ensures |rt.AvailableProviders(now)| < Max(minProviders, 3) ==> ConsensusOutcome(rt, b, message, minProviders, now).error.NoProviders?
    ensures ConsensusOutcome(rt, b, message, minProviders, now).Ok? ==>
              && b.launches
              && rt.TopRanked(Max(minProviders, 3), General, now).Some?
              && |ConsensusOutcome(rt, b, message, minProviders, now).value.responses| >= minProviders
  {
    var r := ConsensusOutcome(rt, b, message, minProviders, now);
    if r.Ok? {
      var chosen := rt.TopRanked(Max(minProviders, 3), General, now).value;
      var rs := Successes(Responses(b, message, chosen));
      assert r.value == FindConsensus(rs);
    }
  }

  /** The provider named by a prompt step's `provider` field, when it names one. */
  function PinnedProvider(config: StepConfig): (p: Option<Provider>)
    requires config.PromptConfig?
    ensures p.Some? ==> config.provider.Some? && Name(p.value) == ToLower(config.provider.value)
  {
    if config.provider.Some? then ProviderFromName(config.provider.value) else None
  }

  /** The provider a step prompts through `prompt_provider`: a prompt step's pinned provider or the router's best. */
  function StepTarget(rt: ProviderRouter, config: StepConfig, now: nat): (p: Option<Provider>)
    reads rt
  {
    if !config.PromptConfig? then None
    else if PinnedProvider(config).Some? then PinnedProvider(config)
    else BestTarget(rt, now)
  }

  /** A step that a provider runs: a prompt, a parallel prompt or a consensus. */
  predicate ProviderStep(config: StepConfig)
  {
    config.PromptConfig? || config.ParallelConfig? || config.ConsensusConfig?
  }

  /** The result of the provider work of a step, as `execute_workflow_step` builds it for each kind. */
  ghost function StepOutcome(rt: ProviderRouter, b: Backend, config: StepConfig, now: nat, durationMs: nat)
    : (r: Result<StepResult>)
    reads rt
    requires ProviderStep(config)
  {
    match config
    case PromptConfig(message, _, _) =>
      var response := match StepTarget(rt, config, now)
        case Some(p) => PromptResult(b, p, message)
        case None => Err(NoProviders("no healthy providers available"));
      (match response
       case Ok(resp) => Ok(StepResult(resp.text, Some(Name(resp.provider)), None, durationMs))
       case Err(e) => Err(e))
    case ParallelConfig(message, names) =>
      if b.launches then Ok(ParallelStepResult(Responses(b, message, ParsedProviders(names)), durationMs))
      else Err(LaunchError)
    case ConsensusConfig(message, minProviders) =>
      match ConsensusOutcome(rt, b, message, minProviders, now)
      case Ok(c) => Ok(StepResult(c.consensusText, None, Some(c.responses), durationMs))
      case Err(e) => Err(e)
  }

  /**
   * What a step's result promises: its duration; a prompt step's provider is the pinned one or,
   * unpinned, the router's first best, and with none available the step fails with `NoProviders`;
   * a consensus step lists at least `minProviders` responses.
   */
  lemma StepOutcomeFacts(rt: ProviderRouter, b: Backend, config: StepConfig, now: nat, durationMs: nat)
    requires ProviderStep(config)
    ensures StepOutcome(rt, b, config, now, durationMs).Ok? ==> StepOutcome(rt, b, config, now, durationMs).value.durationMs == durationMs
    ensures config.PromptConfig? && StepOutcome(rt, b, config, now, durationMs).Ok? ==>
              && StepTarget(rt, config, now).Some?
              && StepOutcome(rt, b, config, now, durationMs).value.provider == Some(Name(StepTarget(rt, config, now).value))
    ensures config.PromptConfig? && PinnedProvider(config).None? && StepOutcome(rt, b, config, now, durationMs).Ok? ==>
              rt.IsFirstBest(rt.AvailableProviders(now), StepTarget(rt, config, now).value, General)
    ensures config.PromptConfig? && PinnedProvider(config).None? && rt.AvailableProviders(now) == [] ==>
              StepOutcome(rt, b, config, now, durationMs) == Err(NoProviders("no healthy providers available"))
    ensures config.ConsensusConfig? && StepOutcome(rt, b, config, now, durationMs).Ok? ==>
              && StepOutcome(rt, b, config, now, durationMs).value.provider == None
              && StepOutcome(rt, b, config, now, durationMs).value.responses.Some?
              && |StepOutcome(rt, b, config, now, durationMs).value.responses.value| >= config.minProviders
  {
    var avail := rt.AvailableProviders(now);
    if config.PromptConfig? && PinnedProvider(config).None? && avail != [] {
      rt.FirstBestIsFirstBest(avail, General);
    }
    if config.ConsensusConfig? {
      ConsensusOutcomeFacts(rt, b, config.message, config.minProviders, now);
    }
  }

  /** What a step no provider runs gives: a review step waits for a human, conditional and tool steps are refused. */
  function HeldOutcome(config: StepConfig): (r: Result<StepResult>)
    requires !ProviderStep(config)
    ensures r.Err? && r.error.Workflow?
  {
    if config.HumanReviewConfig? then Err(Error.Workflow("waiting for human review"))
    else Err(Error.Workflow("unsupported step type"))
  }

  /** The result of driving a step: provider steps run, the others are held. */
  ghost function DriveOutcome(rt: ProviderRouter, b: Backend, config: StepConfig, now: nat, durationMs: nat)
    : (r: Result<StepResult>)
    reads rt
  {
    if ProviderStep(config) then StepOutcome(rt, b, config, now, durationMs) else HeldOutcome(config)
  }

  /**
   * The router's records after a step with `config` whose prompted provider, if any, was `target`:
   * a prompt step records its call as `prompt_provider` does; no other step touches the router.
   */
  ghost predicate PromptedAs(b: Backend, config: StepConfig, target: Option<Provider>, now: nat,
                             health0: map<Provider, ProviderHealth>, stats0: map<Provider, ProviderStats>,
                             rt: ProviderRouter)
    reads rt
  {
    if config.PromptConfig?
    then rt.health == HealthAfter(b, target, config.message, now, health0)
         && rt.stats == StatsAfter(b, target, config.message, stats0)
    else rt.health == health0 && rt.stats == stats0
  }

  /** The orchestrator: a router shared by all calls and the workflows it drives, keyed by id. */
  class AgentOrchestrator {
    const router: ProviderRouter
    var workflows: map<string, Workflow>

    /** The router is consistent, every workflow is, and no workflow object sits under two ids. */
    ghost predicate Valid()
      reads this, router, workflows.Values
    {
      && router.Valid()
      && (forall id :: id in workflows ==> workflows[id].Valid())
      && (forall a, b :: a in workflows && b in workflows && a != b ==> workflows[a] != workflows[b])
    }

    /** `AgentOrchestrator::new`: a fresh router over `catalog` and no workflows. */
    constructor (catalog: Catalog)
      requires Distinct(catalog.all)
      ensures Valid() && fresh(router)
      ensures router.catalog == catalog && router.preferences == DefaultPreferences()
      ensures router.health == map[] && router.stats == map[] && workflows == map[]
    {
      router := new ProviderRouter(catalog);
      workflows := map[];
    }

    /**
     * `prompt_provider`: open a session, authenticate and prompt `p`. Once authenticated, the
     * outcome is recorded in the router, a success with the call's latency and a failure otherwise.
     */
    method PromptProvider(b: Backend, p: Provider, message: string, now: nat) returns (r: Result<PromptResponse>)
      requires router.Valid()
      modifies router
      ensures router.Valid()
      ensures r == PromptResult(b, p, message)
      ensures router.preferences == old(router.preferences)
      ensures router.health == HealthAfter(b, Some(p), message, now, old(router.health))
      ensures router.stats == StatsAfter(b, Some(p), message, old(router.stats))
    {
      if !b.launches {
        return Err(LaunchError);
      }
      if !b.authenticates(p) {
        return Err(Error.Provider("authentication failed"));
      }
      r := Outcome(b, p, message);
      if r.Ok? {
        assert HealthAfter(b, Some(p), message, now, router.health)
               == router.health[p := router.HealthOf(p).RecordSuccess(b.latencyMs(p), now)];
        router.RecordSuccess(p, b.latencyMs(p), now);
      } else {
        assert HealthAfter(b, Some(p), message, now, router.health) == router.health[p := router.HealthOf(p).RecordFailure(now)];
        router.RecordFailure(p, now);
      }
    }

    /** `prompt`: ask the router's best provider for a general task, or fail with `NoProviders`. */
    method Prompt(b: Backend, message: string, now: nat) returns (r: Result<PromptResponse>)
      requires router.Valid()
      modifies router
      ensures router.Valid()
      ensures router.preferences == old(router.preferences)
      ensures r == old(BestPromptOutcome(router, b, message, now))
      ensures router.health == HealthAfter(b, old(BestTarget(router, now)), message, now, old(router.health))
      ensures router.stats == StatsAfter(b, old(BestTarget(router, now)), message, old(router.stats))
      ensures r.Ok? ==> old(router.IsFirstBest(router.AvailableProviders(now), r.value.provider, General))
    {
      var best := router.SelectBest(General, now);
      if best.Err? {
        return Err(best.error);
      }
      r := PromptProvider(b, best.value, message, now);
    }

    /**
     * `parallel_prompt`: one session, then each provider in turn; an authentication or prompt
     * failure becomes that provider's entry and the loop goes on. Nothing is recorded in the router.
     */
    method ParallelPrompt(b: Backend, message: string, providers: seq<Provider>)
      returns (r: Result<seq<(Provider, Result<PromptResponse>)>>)
      ensures !b.launches ==> r == Err(LaunchError)
      ensures b.launches ==> r == Ok(Responses(b, message, providers))
    {
      if !b.launches {
        return Err(LaunchError);
      }
      var results: seq<(Provider, Result<PromptResponse>)> := [];
      for i := 0 to |providers|
        invariant results == Responses(b, message, providers[..i])
      {
        var provider := providers[i];
        if !b.authenticates(provider) {
          results := results + [(provider, Err(Error.Provider("authentication failed")))];
          continue;
        }
        var promptResult := match b.reply(provider, message)
          case Some(text) => Ok(PromptResponse(provider, text))
          case None => Err(Error.Provider("prompt failed"));
        results := results + [(provider, promptResult)];
      }
      assert providers[..|providers|] == providers;
      r := Ok(results);
    }

    /**
     * `consensus_prompt`: ask the router for `max(minProviders, 3)` providers, prompt them all,
     * and build the consensus from the successes, of which there must be at least `minProviders`.
     * The router is only read.
     */
    method ConsensusPrompt(b: Backend, message: string, minProviders: nat, now: nat)
      returns (r: Result<ConsensusResult>, ghost chosen: seq<Provider>)
      requires router.Valid()
      ensures r == ConsensusOutcome(router, b, message, minProviders, now)
      ensures |router.AvailableProviders(now)| < Max(minProviders, 3) ==> r.Err? && r.error.NoProviders?
      ensures !b.launches ==> r.Err?
      ensures r.Ok? ==>
                && |chosen| == Max(minProviders, 3)
                && router.IsTopRanked(router.AvailableProviders(now), chosen, General)
                && |Successes(Responses(b, message, chosen))| >= minProviders
                && r.value == FindConsensus(Successes(Responses(b, message, chosen)))
    {
      chosen := [];
      var selection := router.SelectMultiple(Max(minProviders, 3), General, now);
      if selection.Err? {
        r := Err(selection.error);
        return;
      }
      chosen := selection.value;
      var results := ParallelPrompt(b, message, selection.value);
      if results.Err? {
        r := Err(results.error);
        return;
      }
      var responses := Successes(results.value);
      if |responses| < minProviders {
        r := Err(NoProviders("only " + NatToString(|responses|) + " providers responded, need "
                             + NatToString(minProviders)));
        return;
      }
      r := Ok(FindConsensus(responses));
    }

    /** `start_workflow`: file `w` under its id, replacing any workflow already filed there. */
    method StartWorkflow(w: Workflow) returns (id: string)
      requires Valid() && w.Valid()
      requires forall k :: k in workflows ==> workflows[k] != w
      modifies this
      ensures Valid()
      ensures id == w.id && workflows == old(workflows)[id := w]
      ensures |workflows| == |old(workflows)| + (if id in old(workflows) then 0 else 1)
    {
      id := w.id;
      workflows := workflows[id := w];
    }

    /** `status`: the available providers, the number of workflows and the usage records. */
    function Status(now: nat): (s: OrchestratorStatus)
      reads this, router
      requires router.Valid()
      ensures s.activeWorkflows == |workflows|
      ensures forall p :: p in s.availableProviders <==> p in router.catalog.all && router.IsHealthy(p, now)
      ensures AllBalanced(s.providerStats)
    {
      router.AvailableInCatalogOrder(now);
      OrchestratorStatus(router.AvailableProviders(now), |workflows|, router.GetStats())
    }

    /** The provider work of a prompt, parallel or consensus step, yielding the step's result. */
    method RunStep(b: Backend, config: StepConfig, now: nat, durationMs: nat) returns (r: Result<StepResult>)
      requires router.Valid()
      requires ProviderStep(config)
      modifies router
      ensures router.Valid()
      ensures router.preferences == old(router.preferences)
      ensures r == old(StepOutcome(router, b, config, now, durationMs))
      ensures PromptedAs(b, config, old(StepTarget(router, config, now)), now, old(router.health), old(router.stats), router)
    {
      match config {
        case PromptConfig(message, pinned, _) =>
          var provider := if pinned.Some? then ProviderFromName(pinned.value) else None;
          var response;
          if provider.Some? {
            response := PromptProvider(b, provider.value, message, now);
          } else {
            response := Prompt(b, message, now);
          }
          if response.Err? {
            return Err(response.error);
          }
          r := Ok(StepResult(response.value.text, Some(Name(response.value.provider)), None, durationMs));
        case ParallelConfig(message, names) =>
          var results := ParallelPrompt(b, message, ParsedProviders(names));
          if results.Err? {
            return Err(results.error);
          }
          var responses := ParallelResponses(Successes(results.value));
          r := Ok(StepResult(ParallelOutput(responses), None, Some(responses), durationMs));
        case ConsensusConfig(message, minProviders) =>
          var consensus;
          ghost var chosen;
          consensus, chosen := ConsensusPrompt(b, message, minProviders, now);
          if consensus.Err? {
            return Err(consensus.error);
          }
          r := Ok(StepResult(consensus.value.consensusText, None, Some(consensus.value.responses), durationMs));
      }
    }

    /**
     * What running the current step of workflow `id` returns: an unknown id, a finished workflow
     * and a workflow with no current step are errors; otherwise the outcome of driving the step.
     */
    ghost function ExecuteOutcome(b: Backend, id: string, now: nat, durationMs: nat): (r: Result<StepResult>)
      reads this, router, workflows.Values
    {
      if id !in workflows then Err(Error.Workflow("workflow not found: " + id))
      else
        var w := workflows[id];
        if w.IsComplete() then Err(InvalidState("workflow already complete"))
        else match w.Current()
          case None => Err(InvalidState("no current step"))
          case Some(step) => DriveOutcome(router, b, step.config, now, durationMs)
    }

    /**
     * `execute_workflow_step`: run the current step of workflow `id`. Unknown ids, finished
     * workflows and workflows with no current step are refused unchanged; otherwise the step
     * is driven as `DriveStep` describes. No other workflow changes.
     */
    method ExecuteWorkflowStep(b: Backend, id: string, now: nat, durationMs: nat) returns (r: Result<StepResult>)
      requires Valid()
      modifies router, if id in workflows then {workflows[id]} else {}
      ensures Valid() && workflows == old(workflows)
      ensures router.preferences == old(router.preferences)
      ensures id !in workflows ==> r.Err? && r.error.Workflow? && unchanged(router)
      ensures id in workflows && old(workflows[id].IsComplete()) ==>
                r.Err? && r.error.InvalidState? && unchanged(workflows[id]) && unchanged(router)
      ensures id in workflows && !old(workflows[id].IsComplete()) && old(workflows[id].Current()).None? ==>
                r.Err? && r.error.InvalidState? && unchanged(workflows[id]) && unchanged(router)
      ensures id in workflows && !old(workflows[id].IsComplete()) && old(workflows[id].Current()).Some? ==>
                StepDriven(workflows[id], old(workflows[id].steps), old(workflows[id].currentStep),
                           old(workflows[id].context), r, old(router.health), old(router.stats), router)
      ensures r == old(ExecuteOutcome(b, id, now, durationMs))
      ensures id in workflows && !old(workflows[id].IsComplete()) && old(workflows[id].Current()).Some? ==>
                PromptedAs(b, old(workflows[id].Current().value.config),
                           old(StepTarget(router, workflows[id].Current().value.config, now)),
                           now, old(router.health), old(router.stats), router)
    {
      if id !in workflows {
        return Err(Error.Workflow("workflow not found: " + id));
      }
      var w := workflows[id];
      if w.IsComplete() {
        return Err(InvalidState("workflow already complete"));
      }
      if w.Current().None? {
        return Err(InvalidState("no current step"));
      }
      r := DriveStep(b, w, now, durationMs);
    }

    /**
     * The outcome of driving the step at `c` of a workflow whose steps and context were `steps0`
     * and `ctx0`: the step is started and the workflow set running; a review step then pauses the
     * workflow; a conditional or tool step is refused; a provider step either fails, leaving the
     * step running and the cursor in place, or completes with its result and advances the cursor,
     * completing the workflow at the last step. The context never changes, nor does the router
     * unless the step prompted a provider.
     */
    ghost predicate StepDriven(w: Workflow, steps0: seq<WorkflowStep>, c: nat, ctx0: map<string, Value>,
                               r: Result<StepResult>, health0: map<Provider, ProviderHealth>,
                               stats0: map<Provider, ProviderStats>, rt: ProviderRouter)
      reads w, rt
      requires c < |steps0|
    {
      var step := steps0[c];
      && w.context == ctx0
      && (!step.config.PromptConfig? ==> rt.health == health0 && rt.stats == stats0)
      && (step.config.HumanReviewConfig? ==>
            && r.Err? && r.error.Workflow?
            && w.state == Paused && w.currentStep == c
            && w.steps == steps0[c := step.Start().(state := WaitingForHuman)])
      && (step.config.ConditionalConfig? || step.config.ToolConfig? ==>
            r.Err? && r.error.Workflow? && w.state == Running && w.currentStep == c && w.steps == steps0[c := step.Start()])
      && (r.Err? && !step.config.HumanReviewConfig? ==>
            w.state == Running && w.currentStep == c && w.steps == steps0[c := step.Start()])
      && (r.Ok? ==>
            && (step.config.PromptConfig? || step.config.ParallelConfig? || step.config.ConsensusConfig?)
            && w.steps == steps0[c := step.Start().Complete(r.value)]
            && w.currentStep == c + 1
            && w.state == if c + 1 == |w.steps| then Completed else Running)
    }

    /** Start the current step of `w`, then pause, refuse, or run it and advance (see `StepDriven`). */
    method DriveStep(b: Backend, w: Workflow, now: nat, durationMs: nat) returns (r: Result<StepResult>)
      requires router.Valid() && w.Valid() && w.currentStep < |w.steps|
      modifies router, w
      ensures router.Valid() && w.Valid()
      ensures router.preferences == old(router.preferences)
      ensures StepDriven(w, old(w.steps), old(w.currentStep), old(w.context), r, old(router.health), old(router.stats), router)
      ensures r == old(DriveOutcome(router, b, w.steps[w.currentStep].config, now, durationMs))
      ensures PromptedAs(b, old(w.steps[w.currentStep].config), old(StepTarget(router, w.steps[w.currentStep].config, now)),
                         now, old(router.health), old(router.stats), router)
    {
      var c := w.currentStep;
      var config := w.steps[c].config;
      ghost var steps0, ctx0, health0, stats0 := w.steps, w.context, router.health, router.stats;
      w.steps := w.steps[c := w.steps[c].Start()];
      w.state := Running;
      if ProviderStep(config) {
        r := RunAndAdvance(b, w, now, durationMs);
        RunDriven(w, steps0, c, ctx0, r, health0, stats0, router);
      } else {
        r := HoldStep(w);
        HeldDriven(w, steps0, c, ctx0, r, health0, stats0, router);
      }
    }

    /** A provider step that ran as `RunAndAdvance` promises was driven as `StepDriven` describes. */
    lemma RunDriven(w: Workflow, steps0: seq<WorkflowStep>, c: nat, ctx0: map<string, Value>, r: Result<StepResult>,
                    health0: map<Provider, ProviderHealth>, stats0: map<Provider, ProviderStats>, rt: ProviderRouter)
      requires c < |steps0| && ProviderStep(steps0[c].config) && w.context == ctx0
      requires !steps0[c].config.PromptConfig? ==> rt.health == health0 && rt.stats == stats0
      requires r.Err? ==> w.steps == steps0[c := steps0[c].Start()] && w.currentStep == c && w.state == Running
      requires r.Ok? ==>
                 && w.steps == steps0[c := steps0[c].Start()][c := steps0[c].Start().Complete(r.value)]
                 && w.currentStep == c + 1
                 && w.state == if w.currentStep == |w.steps| then Completed else Running
      ensures StepDriven(w, steps0, c, ctx0, r, health0, stats0, rt)
    {
      if r.Ok? {
        assert steps0[c := steps0[c].Start()][c := steps0[c].Start().Complete(r.value)]
               == steps0[c := steps0[c].Start().Complete(r.value)];
      }
    }

    /** A step no provider runs, held as `HoldStep` promises, was driven as `StepDriven` describes. */
    lemma HeldDriven(w: Workflow, steps0: seq<WorkflowStep>, c: nat, ctx0: map<string, Value>, r: Result<StepResult>,
                     health0: map<Provider, ProviderHealth>, stats0: map<Provider, ProviderStats>, rt: ProviderRouter)
      requires c < |steps0| && !ProviderStep(steps0[c].config) && w.context == ctx0
      requires rt.health == health0 && rt.stats == stats0
      requires r == HeldOutcome(steps0[c].config) && w.currentStep == c
      requires steps0[c].config.HumanReviewConfig? ==>
                 w.steps == steps0[c := steps0[c].Start()][c := steps0[c].Start().(state := WaitingForHuman)] && w.state == Paused
      requires !steps0[c].config.HumanReviewConfig? ==> w.steps == steps0[c := steps0[c].Start()] && w.state == Running
      ensures StepDriven(w, steps0, c, ctx0, r, health0, stats0, rt)
    {
      if steps0[c].config.HumanReviewConfig? {
        assert steps0[c := steps0[c].Start()][c := steps0[c].Start().(state := WaitingForHuman)]
               == steps0[c := steps0[c].Start().(state := WaitingForHuman)];
      }
    }

    /**
     * Run the provider work of the started current step of `w`: an error leaves `w` as it is;
     * a result completes the step and advances the cursor.
     */
    method RunAndAdvance(b: Backend, w: Workflow, now: nat, durationMs: nat) returns (r: Result<StepResult>)
      requires router.Valid() && w.Valid() && w.currentStep < |w.steps|
      requires ProviderStep(w.steps[w.currentStep].config)
      modifies router, w
      ensures router.Valid() && w.Valid()
      ensures router.preferences == old(router.preferences)
      ensures r == old(StepOutcome(router, b, w.steps[w.currentStep].config, now, durationMs))
      ensures PromptedAs(b, old(w.steps[w.currentStep].config), old(StepTarget(router, w.steps[w.currentStep].config, now)),
                         now, old(router.health), old(router.stats), router)
      ensures r.Err? ==> w.steps == old(w.steps) && w.currentStep == old(w.currentStep) && w.state == old(w.state)
      ensures r.Ok? ==> w.steps == old(w.steps[w.currentStep := w.steps[w.currentStep].Complete(r.value)])
      ensures r.Ok? ==> w.currentStep == old(w.currentStep) + 1
      ensures r.Ok? ==> w.state == if w.currentStep == |w.steps| then Completed else old(w.state)
      ensures w.context == old(w.context)
    {
      var result := RunStep(b, w.steps[w.currentStep].config, now, durationMs);
      if result.Err? {
        return Err(result.error);
      }
      CompleteAndAdvance(w, result.value);
      r := Ok(result.value);
    }
  }

  /** Hold the started current step of `w`, which no provider runs: a review step pauses the workflow. */
  method HoldStep(w: Workflow) returns (r: Result<StepResult>)
    requires w.Valid() && w.currentStep < |w.steps| && !ProviderStep(w.steps[w.currentStep].config)
    modifies w
    ensures w.Valid()
    ensures r == HeldOutcome(old(w.steps[w.currentStep].config))
    ensures w.currentStep == old(w.currentStep) && w.context == old(w.context)
    ensures old(w.steps[w.currentStep].config).HumanReviewConfig? ==>
              && w.steps == old(w.steps[w.currentStep := w.steps[w.currentStep].(state := WaitingForHuman)])
              && w.state == Paused
    ensures !old(w.steps[w.currentStep].config).HumanReviewConfig? ==> w.steps == old(w.steps) && w.state == old(w.state)
  {
    var c := w.currentStep;
    match w.steps[c].config {
      case HumanReviewConfig(_) =>
        w.steps := w.steps[c := w.steps[c].(state := WaitingForHuman)];
        w.state := Paused;
        return Err(Error.Workflow("waiting for human review"));
      case ConditionalConfig(_, _, _) =>
        return Err(Error.Workflow("unsupported step type"));
      case ToolConfig(_, _) =>
        return Err(Error.Workflow("unsupported step type"));
    }
  }

  /** Complete the current step of `w` with `result` and advance past it, completing `w` at the last step. */
  method CompleteAndAdvance(w: Workflow, result: StepResult)
    requires w.Valid() && w.currentStep < |w.steps|
    modifies w
    ensures w.Valid()
    ensures w.steps == old(w.steps[w.currentStep := w.steps[w.currentStep].Complete(result)])
    ensures w.currentStep == old(w.currentStep) + 1
    ensures w.state == if w.currentStep == |w.steps| then Completed else old(w.state)
    ensures w.context == old(w.context)
  {
    var c := w.currentStep;
    w.steps := w.steps[c := w.steps[c].Complete(result)];
    var advanced := w.Advance();
    // The cursor was on a step, so advancing cannot be refused.
    assert advanced.Ok?;
  }

  function Max(a: nat, b: nat): (m: nat)
    ensures m >= a && m >= b && (m == a || m == b)
  {
    if a >= b then a else b
  }
}
