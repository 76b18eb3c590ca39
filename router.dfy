/**
 * Provider router: per-provider health and usage counters, the additive scoring rule,
 * and selection of one provider (argmax) or several (stable sort by score).
 *
 * Scores are kept in tenths so that the 0.1 usage factor stays integral; time is an
 * explicit `now` in milliseconds.
 */
module Router {
  import opened Errors
  import opened Text
  import opened Providers

  /** Type of task, used for routing bonuses. */
  datatype TaskType = General | Search | LargeContext | Code | Creative

  /** A run of this many consecutive failures makes a provider unhealthy ... */
  const UnhealthyRun: nat := 3
  /** ... while its last failure lies less than five minutes back. */
  const FailureWindowMs: nat := 300_000
  /** Priority of a provider that the preference table does not mention. */
  const DefaultPriority: nat := 50

  /** Time elapsed since instant `t`; zero when `t` is not in the past. */
  function Elapsed(now: nat, t: nat): nat
  {
    if now >= t then now - t else 0
  }

  /** Exponential moving average of latencies, with weight 0.9 on the old average. */
  function Ema(avg: nat, latency: nat): (r: nat)
    ensures (if avg <= latency then avg else latency) <= r
    ensures r <= (if avg <= latency then latency else avg)
  {
    (9 * avg + latency) / 10
  }

  /** Health of one provider. */
  datatype ProviderHealth = ProviderHealth(
    lastSuccess: Option<nat>,
    lastFailure: Option<nat>,
    consecutiveFailures: nat,
    avgLatencyMs: Option<nat>)
  {
    /** Unhealthy exactly when 3+ consecutive failures and the last one under 300 s ago. */
    predicate IsHealthy(now: nat)
    {
      if consecutiveFailures >= UnhealthyRun then
        match lastFailure
        case Some(t) => !(Elapsed(now, t) < FailureWindowMs)
        case None => true
      else true
    }

    function RecordSuccess(latencyMs: nat, now: nat): (h: ProviderHealth)
      ensures h.consecutiveFailures == 0 && h.lastSuccess == Some(now)
      ensures h.lastFailure == lastFailure
      ensures h.avgLatencyMs == Some(if avgLatencyMs.Some? then Ema(avgLatencyMs.value, latencyMs) else latencyMs)
    {
      this.(lastSuccess := Some(now), consecutiveFailures := 0,
            avgLatencyMs := Some(match avgLatencyMs
                                 case Some(avg) => Ema(avg, latencyMs)
                                 case None => latencyMs))
    }

    function RecordFailure(now: nat): (h: ProviderHealth)
      ensures h.consecutiveFailures == consecutiveFailures + 1 && h.lastFailure == Some(now)
      ensures h.lastSuccess == lastSuccess && h.avgLatencyMs == avgLatencyMs
    {
      this.(lastFailure := Some(now), consecutiveFailures := consecutiveFailures + 1)
    }
  }

  /** `ProviderHealth::default()`. */
  const NoHealth := ProviderHealth(None, None, 0, None)

  /** A success makes any provider healthy, whatever happened before. */
  lemma HealthyAfterSuccess(h: ProviderHealth, latencyMs: nat, t: nat, now: nat)
    ensures h.RecordSuccess(latencyMs, t).IsHealthy(now)
  {
  }

  /** Three failures in a row, the last less than 300 s before `now`, make a provider unhealthy. */
  lemma UnhealthyAfterThreeFailures(h: ProviderHealth, t1: nat, t2: nat, t3: nat, now: nat)
    requires t3 <= now < t3 + FailureWindowMs
    ensures !h.RecordFailure(t1).RecordFailure(t2).RecordFailure(t3).IsHealthy(now)
  {
  }

  /** A provider is unhealthy only while its last failure is recent; 300 s later it is healthy again. */
  lemma HealthyAfterCooldown(h: ProviderHealth, now: nat)
    requires h.lastFailure.Some? && now >= h.lastFailure.value + FailureWindowMs
    ensures h.IsHealthy(now)
  {
  }

  /** Fewer than three consecutive failures never make a provider unhealthy. */
  lemma HealthyBelowThreshold(h: ProviderHealth, now: nat)
    requires h.consecutiveFailures < UnhealthyRun
    ensures h.IsHealthy(now)
  {
  }

  /** Usage counters of one provider (`total_tokens` is carried but never updated by the core). */
  datatype ProviderStats = ProviderStats(
    totalRequests: nat,
    successfulRequests: nat,
    failedRequests: nat,
    totalTokens: Option<nat>)
  {
    /** Every request counted is either a success or a failure. */
    predicate Balanced()
    {
      totalRequests == successfulRequests + failedRequests
    }

    function CountSuccess(): (s: ProviderStats)
      ensures s.totalRequests == totalRequests + 1 && s.successfulRequests == successfulRequests + 1
      ensures s.failedRequests == failedRequests && s.totalTokens == totalTokens
    {
      this.(totalRequests := totalRequests + 1, successfulRequests := successfulRequests + 1)
    }

    function CountFailure(): (s: ProviderStats)
      ensures s.totalRequests == totalRequests + 1 && s.failedRequests == failedRequests + 1
      ensures s.successfulRequests == successfulRequests && s.totalTokens == totalTokens
    {
      this.(totalRequests := totalRequests + 1, failedRequests := failedRequests + 1)
    }
  }

  /** `ProviderStats::default()`. */
  const NoStats := ProviderStats(0, 0, 0, None)

  /** Priorities by lower-case provider name, and the names of disabled providers. */
  datatype ProviderPreferences = ProviderPreferences(priorities: map<string, nat>, disabled: seq<string>)
  {
    /** Priority looked up by the provider's lower-cased name (display names are lower case already: NameIsLower). */
    function Priority(p: Provider): nat
    {
      if Name(p) in priorities then priorities[Name(p)] else DefaultPriority
    }

    /** Some disabled entry names `p`, compared without regard to case. */
    predicate IsDisabled(p: Provider)
    {
      exists i :: 0 <= i < |disabled| && ToLower(disabled[i]) == Name(p)
    }
  }

  /** Display names are already lower case. */
  lemma NameIsLower(p: Provider)
    ensures ToLower(Name(p)) == Name(p)
  {
    var s := Name(p);
    assert IsLower(s);
    assert ToLower(s) == s;
  }

  /** The default table: Claude 100, ChatGPT 90, Gemini 80, Grok 70, Perplexity 60, NotebookLM 50; nothing disabled. */
  function DefaultPreferences(): (d: ProviderPreferences)
    ensures d.Priority(Claude) == 100 && d.Priority(ChatGpt) == 90 && d.Priority(Gemini) == 80
    ensures d.Priority(Grok) == 70 && d.Priority(Perplexity) == 60 && d.Priority(NotebookLm) == 50
    ensures forall p :: !d.IsDisabled(p)
  {
    var d := ProviderPreferences(
      map["claude" := 100, "chatgpt" := 90, "gemini" := 80, "grok" := 70, "perplexity" := 60, "notebooklm" := 50],
      []);
    d
  }

  /** A disabled entry spelled in upper case still disables its provider. */
  lemma {:induction false} DisabledIgnoresCase(prefs: ProviderPreferences, p: Provider)
    ensures prefs.(disabled := prefs.disabled + [ToUpper(Name(p))]).IsDisabled(p)
  {
    var d := prefs.disabled + [ToUpper(Name(p))];
    NameIsLower(p);
    assert IsLower(Name(p));
    LowerOfUpper(Name(p));
    assert ToLower(d[|d| - 1]) == Name(p);
  }

  /** The task-specific bonus of `p` for task `t`. */
  function TaskBonus(catalog: Catalog, t: TaskType, p: Provider): nat
  {
    match t
    case Search => if p in catalog.search then 50 else 0
    case LargeContext => if p in catalog.largeContext then 30 else 0
    case Code => if p == Claude || p == ChatGpt then 20 else 0
    case Creative => if p == Gemini || p == Claude then 15 else 0
    case General => 0
  }

  /**
   * The score in tenths: priority plus task bonus, minus 10 per consecutive failure,
   * minus one per whole second of average latency, minus 0.1 per request modulo 100.
   */
  function ScoreOf(priority: nat, bonus: nat, health: Option<ProviderHealth>, stats: Option<ProviderStats>): int
  {
    var healthPenalty :=
      match health
      case None => 0
      case Some(h) =>
        (if h.consecutiveFailures > 0 then 100 * h.consecutiveFailures else 0)
        + (match h.avgLatencyMs case Some(l) => 10 * (l / 1000) case None => 0);
    var usagePenalty :=
      match stats
      case None => 0
      case Some(s) => s.totalRequests % 100;
    10 * priority + 10 * bonus - healthPenalty - usagePenalty
  }

  /** Penalties only ever lower a score: it never exceeds priority plus bonus, reached with no history. */
  lemma ScoreBounds(priority: nat, bonus: nat, health: Option<ProviderHealth>, stats: Option<ProviderStats>)
    ensures ScoreOf(priority, bonus, health, stats) <= 10 * (priority + bonus)
    ensures health == None && stats == None ==> ScoreOf(priority, bonus, health, stats) == 10 * (priority + bonus)
  {
  }

  /** Recording a failure strictly lowers the provider's score, even when the usage counter wraps at 100. */
  lemma FailureLowersScore(priority: nat, bonus: nat, health: Option<ProviderHealth>, stats: Option<ProviderStats>, now: nat)
    ensures
      var h := match health case Some(h) => h case None => NoHealth;
      var s := match stats case Some(s) => s case None => NoStats;
      ScoreOf(priority, bonus, Some(h.RecordFailure(now)), Some(s.CountFailure()))
        < ScoreOf(priority, bonus, health, stats)
  {
    var h := match health case Some(h) => h case None => NoHealth;
    var s := match stats case Some(s) => s case None => NoStats;
    var n := s.totalRequests;
    assert (n + 1) % 100 == n % 100 + 1 || ((n + 1) % 100 == 0 && n % 100 == 99);
  }

  /**
   * Entry `a` of `r` goes before entry `b`: a higher score, or an equal score and an
   * earlier original position (`origin` maps each entry to its index in the input).
   */
  ghost predicate Before<T>(r: seq<(T, int)>, origin: seq<nat>, a: nat, b: nat)
    requires a < |r| && b < |r| && |origin| == |r|
  {
    r[a].1 > r[b].1 || (r[a].1 == r[b].1 && origin[a] < origin[b])
  }

  /**
   * The insertion-sort invariant once the first `i` entries are in place: `r` is a permutation
   * of `s` tracked by `origin`, the tail is untouched, and the prefix is in `Before` order.
   */
  ghost predicate SortedPrefix<T>(s: seq<(T, int)>, r: seq<(T, int)>, origin: seq<nat>, i: nat)
  {
    && |r| == |s| == |origin| && i <= |r|
    && multiset(r) == multiset(s)
    && (forall k :: 0 <= k < |r| ==> origin[k] < |s| && r[k] == s[origin[k]])
    && (forall k :: i <= k < |r| ==> origin[k] == k)
    && (forall k :: 0 <= k < i ==> origin[k] < i)
    && (forall a, b :: 0 <= a < b < i ==> Before(r, origin, a, b))
  }

  /**
   * While entry `i` sinks to position `j`: `r` is still a tracked permutation of `s` with the tail
   * untouched, the other entries of the prefix are ordered, and entry `i` goes before all it has passed.
   */
  ghost predicate Sinking<T>(s: seq<(T, int)>, r: seq<(T, int)>, origin: seq<nat>, i: nat, j: nat)
  {
    && j <= i < |r| == |s| == |origin|
    && multiset(r) == multiset(s)
    && (forall k :: 0 <= k < |r| ==> origin[k] < |s| && r[k] == s[origin[k]])
    && (forall k :: i < k < |r| ==> origin[k] == k)
    && origin[j] == i
    && (forall k :: 0 <= k <= i && k != j ==> origin[k] < i)
    && (forall a, b :: 0 <= a < b <= i && a != j && b != j ==> Before(r, origin, a, b))
    && (forall b :: j < b <= i ==> Before(r, origin, j, b))
  }

  /** Swapping the sinking entry with a lower-scored left neighbour keeps `Sinking`, one place further left. */
  lemma SwapStep<T>(s: seq<(T, int)>, r: seq<(T, int)>, origin: seq<nat>, i: nat, j: nat)
    requires 0 < j && Sinking(s, r, origin, i, j) && r[j].1 > r[j - 1].1
    ensures Sinking(s, r[j - 1 := r[j]][j := r[j - 1]], origin[j - 1 := origin[j]][j := origin[j - 1]], i, j - 1)
  {
    var r', origin' := r[j - 1 := r[j]][j := r[j - 1]], origin[j - 1 := origin[j]][j := origin[j - 1]];
    SwapKeepsOthersOrdered(r, origin, r', origin', i, j);
    SwapKeepsSinkerAhead(r, origin, r', origin', i, j, j - 1);
  }

  /** After the swap, the entries other than the sinking one are still pairwise in order. */
  lemma SwapKeepsOthersOrdered<T>(r: seq<(T, int)>, origin: seq<nat>, r': seq<(T, int)>, origin': seq<nat>, i: nat, j: nat)
    requires 0 < j <= i < |r| == |origin|
    requires r' == r[j - 1 := r[j]][j := r[j - 1]] && origin' == origin[j - 1 := origin[j]][j := origin[j - 1]]
    requires forall a, b :: 0 <= a < b <= i && a != j && b != j ==> Before(r, origin, a, b)
    ensures forall a, b :: 0 <= a < b <= i && a != j - 1 && b != j - 1 ==> Before(r', origin', a, b)
  {
    forall a, b | 0 <= a < b <= i && a != j - 1 && b != j - 1
      ensures Before(r', origin', a, b)
    {
      if b == j {
        assert Before(r, origin, a, j - 1);
      } else if a == j {
        assert Before(r, origin, j - 1, b);
      } else {
        assert Before(r, origin, a, b);
      }
    }
  }

  /** After the swap to position `k`, the sinking entry still goes before every entry it has passed, now including its old neighbour. */
  lemma SwapKeepsSinkerAhead<T>(r: seq<(T, int)>, origin: seq<nat>, r': seq<(T, int)>, origin': seq<nat>, i: nat, j: nat, k: nat)
    requires k + 1 == j <= i < |r| == |origin|
    requires r' == r[k := r[j]][j := r[k]] && origin' == origin[k := origin[j]][j := origin[k]]
    requires r[j].1 > r[k].1
    requires forall b :: j < b <= i ==> Before(r, origin, j, b)
    ensures forall b :: k < b <= i ==> Before(r', origin', k, b)
  {
    forall b | k < b <= i
      ensures Before(r', origin', k, b)
    {
      if b > j {
        assert Before(r, origin, j, b);
      }
    }
  }

  /** Sinking stops at the front or next to an entry of at least equal score; then `i + 1` entries are in place. */
  lemma SinkDone<T>(s: seq<(T, int)>, r: seq<(T, int)>, origin: seq<nat>, i: nat, j: nat)
    requires Sinking(s, r, origin, i, j)
    requires j == 0 || r[j].1 <= r[j - 1].1
    ensures SortedPrefix(s, r, origin, i + 1)
  {
    if j > 0 {
      assert Before(r, origin, j - 1, j);
      forall a | 0 <= a < j - 1 ensures Before(r, origin, a, j) {
        assert Before(r, origin, a, j - 1);
      }
    }
  }

  /** One insertion step: entry `i` moves left past every entry of strictly lower score. */
  method InsertEntry<T>(ghost s: seq<(T, int)>, r: seq<(T, int)>, ghost origin: seq<nat>, i: nat)
    returns (r': seq<(T, int)>, ghost origin': seq<nat>)
    requires i < |r| && SortedPrefix(s, r, origin, i)
    ensures SortedPrefix(s, r', origin', i + 1)
  {
    r', origin' := r, origin;
    var j: nat := i;
    while j > 0 && r'[j].1 > r'[j - 1].1
      invariant Sinking(s, r', origin', i, j)
    {
      SwapStep(s, r', origin', i, j);
      r' := r'[j - 1 := r'[j]][j := r'[j - 1]];
      origin' := origin'[j - 1 := origin'[j]][j := origin'[j - 1]];
      j := j - 1;
    }
    SinkDone(s, r', origin', i, j);
  }

  /**
   * Stable sort by descending score (`sort_by` with the reversed comparison), by insertion:
   * the result is a permutation of the input, where `origin[k]` is the input position of entry
   * `k`, and every entry goes before each later one.
   */
  method SortByScore<T>(s: seq<(T, int)>) returns (r: seq<(T, int)>, ghost origin: seq<nat>)
    ensures |r| == |s| && multiset(r) == multiset(s)
    ensures |origin| == |r| && forall k :: 0 <= k < |r| ==> origin[k] < |s| && r[k] == s[origin[k]]
    ensures forall a, b :: 0 <= a < b < |r| ==> Before(r, origin, a, b)
  {
    r := s;
    origin := seq(|s|, k => k);
    var i := 0;
    while i < |r|
      invariant i <= |r| && SortedPrefix(s, r, origin, i)
    {
      r, origin := InsertEntry(s, r, origin, i);
      i := i + 1;
    }
  }

  /** The score of `p` for `t` given the router's catalogue, preferences and records. */
  function RouterScore(catalog: Catalog, prefs: ProviderPreferences, health: map<Provider, ProviderHealth>,
                       stats: map<Provider, ProviderStats>, p: Provider, t: TaskType): int
  {
    ScoreOf(prefs.Priority(p), TaskBonus(catalog, t, p),
            if p in health then Some(health[p]) else None,
            if p in stats then Some(stats[p]) else None)
  }

  /**
   * Recording a failure of `p` lowers `p`'s score for every task type and leaves every
   * other provider's score as it was.
   */
  lemma FailureRanking(catalog: Catalog, prefs: ProviderPreferences, health: map<Provider, ProviderHealth>,
                       stats: map<Provider, ProviderStats>, p: Provider, now: nat)
    ensures
      var h := if p in health then health[p] else NoHealth;
      var s := if p in stats then stats[p] else NoStats;
      var health', stats' := health[p := h.RecordFailure(now)], stats[p := s.CountFailure()];
      && (forall t :: RouterScore(catalog, prefs, health', stats', p, t) < RouterScore(catalog, prefs, health, stats, p, t))
      && (forall q, t :: q != p ==> RouterScore(catalog, prefs, health', stats', q, t) == RouterScore(catalog, prefs, health, stats, q, t))
  {
    forall t {
      FailureLowersScore(prefs.Priority(p), TaskBonus(catalog, t, p),
                         if p in health then Some(health[p]) else None,
                         if p in stats then Some(stats[p]) else None, now);
    }
  }

  /** Every usage record in `m` is balanced. */
  predicate AllBalanced(m: map<Provider, ProviderStats>)
  {
    forall p :: p in m ==> m[p].Balanced()
  }

  /** Replacing one record by a balanced one keeps every record balanced. */
  lemma BalancedUpdate(m: map<Provider, ProviderStats>, p: Provider, s: ProviderStats)
    requires AllBalanced(m) && s.Balanced()
    ensures AllBalanced(m[p := s])
  {
  }

  /** The router: preferences, and health and usage records keyed by provider. */
  class ProviderRouter {
    const catalog: Catalog
    var preferences: ProviderPreferences
    var health: map<Provider, ProviderHealth>
    var stats: map<Provider, ProviderStats>

    /** `Provider::all()` lists each provider once, and every usage record is balanced. */
    ghost predicate Valid()
      reads this
    {
      Distinct(catalog.all) && AllBalanced(stats)
    }

    /** A router with the default preferences and no history. */
    constructor (catalog: Catalog)
      requires Distinct(catalog.all)
      ensures Valid() && this.catalog == catalog
      ensures preferences == DefaultPreferences() && health == map[] && stats == map[]
    {
      this.catalog := catalog;
      preferences := DefaultPreferences();
      health := map[];
      stats := map[];
    }

    /** A router with the given preferences and no history. */
    constructor WithPreferences(catalog: Catalog, preferences: ProviderPreferences)
      requires Distinct(catalog.all)
      ensures Valid() && this.catalog == catalog
      ensures this.preferences == preferences && health == map[] && stats == map[]
    {
      this.catalog := catalog;
      this.preferences := preferences;
      health := map[];
      stats := map[];
    }

    /** A provider without a health record counts as healthy. */
    predicate IsHealthy(p: Provider, now: nat)
      reads this
    {
      p !in health || health[p].IsHealthy(now)
    }

    /** The healthy members of `ps`, in their order in `ps`. */
    function HealthyAmong(ps: seq<Provider>, now: nat): (r: seq<Provider>)
      reads this
      ensures |r| <= |ps|
      ensures forall p :: p in r <==> p in ps && IsHealthy(p, now)
    {
      if ps == [] then []
      else if IsHealthy(ps[0], now) then [ps[0]] + HealthyAmong(ps[1..], now)
      else HealthyAmong(ps[1..], now)
    }

    /** `available_providers`: the healthy elements of `Provider::all()`. */
    function AvailableProviders(now: nat): (r: seq<Provider>)
      reads this
    {
      HealthyAmong(catalog.all, now)
    }

    /** Filtering keeps the relative order of the catalogue, and so keeps its entries distinct. */
    lemma {:induction false} HealthyAmongOrdered(ps: seq<Provider>, now: nat)
      requires Distinct(ps)
      ensures Distinct(HealthyAmong(ps, now))
      ensures forall i, j :: 0 <= i < j < |HealthyAmong(ps, now)| ==>
                IndexOf(ps, HealthyAmong(ps, now)[i]) < IndexOf(ps, HealthyAmong(ps, now)[j])
    {
      if ps != [] {
        var tail := HealthyAmong(ps[1..], now);
        HealthyAmongOrdered(ps[1..], now);
        forall q | q in tail
          ensures IndexOf(ps, q) == 1 + IndexOf(ps[1..], q)
        {
          assert q in ps[1..];
          assert q != ps[0];
        }
      }
    }

    /** The available providers are exactly the healthy catalogue entries, distinct and in catalogue order. */
    lemma AvailableInCatalogOrder(now: nat)
      requires Valid()
      ensures forall p :: p in AvailableProviders(now) <==> p in catalog.all && IsHealthy(p, now)
      ensures Distinct(AvailableProviders(now))
      ensures forall i, j :: 0 <= i < j < |AvailableProviders(now)| ==>
                IndexOf(catalog.all, AvailableProviders(now)[i]) < IndexOf(catalog.all, AvailableProviders(now)[j])
    {
      HealthyAmongOrdered(catalog.all, now);
    }

    function HealthOf(p: Provider): ProviderHealth
      reads this
    {
      if p in health then health[p] else NoHealth
    }

    function StatsOf(p: Provider): ProviderStats
      reads this
    {
      if p in stats then stats[p] else NoStats
    }

    /** `score_provider`, in tenths. */
    function Score(p: Provider, t: TaskType): int
      reads this
    {
      RouterScore(catalog, preferences, health, stats, p, t)
    }

    /** `p` is an available provider of maximal score, and every available provider before it scores strictly less. */
    ghost predicate IsFirstBest(avail: seq<Provider>, p: Provider, t: TaskType)
      reads this
    {
      && p in avail
      && (forall q :: q in avail ==> Score(q, t) <= Score(p, t))
      && (forall j :: 0 <= j < IndexOf(avail, p) ==> Score(avail[j], t) < Score(p, t))
    }

    /** `p` is ranked ahead of `q`: a higher score, or an equal score and earlier in `avail`. */
    ghost predicate RankedBefore(avail: seq<Provider>, p: Provider, q: Provider, t: TaskType)
      reads this
      requires p in avail && q in avail
    {
      Score(p, t) > Score(q, t) || (Score(p, t) == Score(q, t) && IndexOf(avail, p) < IndexOf(avail, q))
    }

    /** `sel` lists available providers in rank order, and each ranks ahead of every available provider left out. */
    ghost predicate IsTopRanked(avail: seq<Provider>, sel: seq<Provider>, t: TaskType)
      reads this
    {
      && (forall x :: x in sel ==> x in avail)
      && (forall a, b :: 0 <= a < b < |sel| ==> sel[a] in avail && sel[b] in avail && RankedBefore(avail, sel[a], sel[b], t))
      && (forall x, q :: x in sel && q in avail && q !in sel ==> RankedBefore(avail, x, q, t))
    }

    /** The single best provider is the head of the ranking, and conversely. */
    lemma BestIsTopRanked(avail: seq<Provider>, p: Provider, t: TaskType)
      ensures IsFirstBest(avail, p, t) <==> IsTopRanked(avail, [p], t)
    {
      if IsTopRanked(avail, [p], t) {
        TopRankedIsBest(avail, p, t);
      }
      if IsFirstBest(avail, p, t) {
        BestIsTop(avail, p, t);
      }
    }

    lemma TopRankedIsBest(avail: seq<Provider>, p: Provider, t: TaskType)
      requires IsTopRanked(avail, [p], t)
      ensures IsFirstBest(avail, p, t)
    {
      assert p in [p];
      forall q | q in avail
        ensures Score(q, t) <= Score(p, t)
      {
        if q != p {
          assert RankedBefore(avail, p, q, t);
        }
      }
      forall j | 0 <= j < IndexOf(avail, p)
        ensures Score(avail[j], t) < Score(p, t)
      {
        var q := avail[j];
        assert IndexOf(avail, q) <= j;
        assert RankedBefore(avail, p, q, t);
      }
    }

    lemma BestIsTop(avail: seq<Provider>, p: Provider, t: TaskType)
      requires IsFirstBest(avail, p, t)
      ensures IsTopRanked(avail, [p], t)
    {
      forall x, q | x in [p] && q in avail && q !in [p]
        ensures RankedBefore(avail, x, q, t)
      {
        var k := IndexOf(avail, q);
        if k < IndexOf(avail, p) {
          assert Score(avail[k], t) < Score(p, t);
        }
      }
    }

    /** The provider a left-to-right scan keeps: the first of maximal score among `ps`. */
    function FirstBest(ps: seq<Provider>, t: TaskType): (p: Provider)
      reads this
      requires ps != []
      ensures p in ps
      decreases |ps|
    {
      if |ps| == 1 then ps[0]
      else
        var b := FirstBest(ps[..|ps| - 1], t);
        if Score(ps[|ps| - 1], t) > Score(b, t) then ps[|ps| - 1] else b
    }

    /** One more provider scanned: it replaces the best so far only when it scores strictly higher. */
    lemma FirstBestExtend(ps: seq<Provider>, i: nat, t: TaskType)
      requires i < |ps|
      ensures i == 0 ==> FirstBest(ps[..i + 1], t) == ps[0]
      ensures i > 0 ==> FirstBest(ps[..i + 1], t)
                          == if Score(ps[i], t) > Score(FirstBest(ps[..i], t), t) then ps[i] else FirstBest(ps[..i], t)
    {
      assert ps[..i + 1][..i] == ps[..i];
    }

    /** The provider the scan keeps is an available provider of maximal score, ahead of every equal one. */
    lemma {:induction false} FirstBestIsFirstBest(ps: seq<Provider>, t: TaskType)
      requires ps != []
      ensures IsFirstBest(ps, FirstBest(ps, t), t)
      decreases |ps|
    {
      var n := |ps|;
      if n > 1 {
        var b := FirstBest(ps[..n - 1], t);
        FirstBestIsFirstBest(ps[..n - 1], t);
        if Score(ps[n - 1], t) > Score(b, t) {
          ScanReplaces(ps, b, t);
        } else {
          ScanKeeps(ps, b, t);
        }
      }
    }

    /** Every element of `ps` is in its prefix without the last element, or is that element. */
    lemma InPrefixOrLast(ps: seq<Provider>)
      requires ps != []
      ensures forall q :: q in ps ==> q in ps[..|ps| - 1] || q == ps[|ps| - 1]
      ensures forall j :: 0 <= j < |ps| - 1 ==> ps[j] in ps[..|ps| - 1]
    {
      forall q | q in ps
        ensures q in ps[..|ps| - 1] || q == ps[|ps| - 1]
      {
        var i :| 0 <= i < |ps| && ps[i] == q;
        if i < |ps| - 1 {
          assert ps[..|ps| - 1][i] == q;
        }
      }
      forall j | 0 <= j < |ps| - 1
        ensures ps[j] in ps[..|ps| - 1]
      {
        assert ps[..|ps| - 1][j] == ps[j];
      }
    }

    /** A last provider scoring no more than the best so far leaves it the first best. */
    lemma ScanKeeps(ps: seq<Provider>, b: Provider, t: TaskType)
      requires |ps| > 1 && IsFirstBest(ps[..|ps| - 1], b, t) && Score(ps[|ps| - 1], t) <= Score(b, t)
      ensures IsFirstBest(ps, b, t)
    {
      var pre := ps[..|ps| - 1];
      InPrefixOrLast(ps);
      var k0 := IndexOf(pre, b);
      assert ps[k0] == b;
      assert IndexOf(ps, b) == k0;
      forall j | 0 <= j < k0
        ensures Score(ps[j], t) < Score(b, t)
      {
        assert ps[j] == pre[j];
      }
    }

    /** A last provider scoring strictly more than the best so far becomes the first best. */
    lemma ScanReplaces(ps: seq<Provider>, b: Provider, t: TaskType)
      requires |ps| > 1 && IsFirstBest(ps[..|ps| - 1], b, t) && Score(ps[|ps| - 1], t) > Score(b, t)
      ensures IsFirstBest(ps, ps[|ps| - 1], t)
    {
      InPrefixOrLast(ps);
    }

    /** The first `count` providers of the ranking of those available, when there are that many. */
    ghost function TopRanked(count: nat, t: TaskType, now: nat): (r: Option<seq<Provider>>)
      reads this
      ensures r.Some? ==> |r.value| == count && IsTopRanked(AvailableProviders(now), r.value, t)
    {
      var avail := AvailableProviders(now);
      if exists sel :: |sel| == count && IsTopRanked(avail, sel, t) then
        Some(var sel :| |sel| == count && IsTopRanked(avail, sel, t); sel)
      else None
    }

    /** Of two different available providers, one ranks ahead of the other. */
    lemma RankedBeforeTotal(avail: seq<Provider>, p: Provider, q: Provider, t: TaskType)
      requires p in avail && q in avail
      ensures p != q ==> RankedBefore(avail, p, q, t) || RankedBefore(avail, q, p, t)
    {
    }

    /**
     * Two rankings that agree before position `k` cannot disagree at `k` with the first one
     * ranking its entry ahead: that entry would be missing from the second one, or come later.
     */
    lemma NotRankedAhead(avail: seq<Provider>, s1: seq<Provider>, s2: seq<Provider>, t: TaskType, k: nat)
      requires IsTopRanked(avail, s1, t) && IsTopRanked(avail, s2, t)
      requires |s1| == |s2| && k < |s1|
      requires forall j :: 0 <= j < k ==> s1[j] == s2[j]
      ensures s1[k] in avail && s2[k] in avail
      ensures s1[k] != s2[k] ==> !RankedBefore(avail, s1[k], s2[k], t)
    {
      assert s1[k] in s1 && s2[k] in s2;
      var x, y := s1[k], s2[k];
      if x != y {
        if x in s2 {
          var j :| 0 <= j < |s2| && s2[j] == x;
          forall i | 0 <= i < k
            ensures s2[i] != x
          {
            assert RankedBefore(avail, s1[i], s1[k], t);
          }
          assert k < j;
          assert RankedBefore(avail, s2[k], s2[j], t);
        } else {
          assert RankedBefore(avail, y, x, t);
        }
      }
    }

    /** The ranking is a strict total order, so a top-ranked selection of a given length is unique. */
    lemma TopRankedUnique(avail: seq<Provider>, s1: seq<Provider>, s2: seq<Provider>, t: TaskType)
      requires IsTopRanked(avail, s1, t) && IsTopRanked(avail, s2, t) && |s1| == |s2|
      ensures s1 == s2
    {
      var k := 0;
      while k < |s1|
        invariant k <= |s1|
        invariant forall j :: 0 <= j < k ==> s1[j] == s2[j]
      {
        NotRankedAhead(avail, s1, s2, t, k);
        NotRankedAhead(avail, s2, s1, t, k);
        RankedBeforeTotal(avail, s1[k], s2[k], t);
        k := k + 1;
      }
    }

    /** A top-ranked selection of length `count` is the one `TopRanked` names. */
    lemma TopRankedIs(count: nat, t: TaskType, now: nat, sel: seq<Provider>)
      requires |sel| == count && IsTopRanked(AvailableProviders(now), sel, t)
      ensures TopRanked(count, t, now) == Some(sel)
    {
      var r := TopRanked(count, t, now);
      TopRankedUnique(AvailableProviders(now), r.value, sel, t);
    }

    /** `select_best`: the first available provider of maximal score, or `NoProviders`. */
    method SelectBest(t: TaskType, now: nat) returns (r: Result<Provider>)
      requires Valid()
      ensures r.Err? <==> AvailableProviders(now) == []
      ensures r.Err? ==> r.error == NoProviders("no healthy providers available")
      ensures r.Ok? ==> IsFirstBest(AvailableProviders(now), r.value, t)
      ensures r.Ok? ==> r.value == FirstBest(AvailableProviders(now), t)
    {
      var available := AvailableProviders(now);
      if |available| == 0 {
        return Err(NoProviders("no healthy providers available"));
      }
      var best: Option<(Provider, int)> := None;
      for i := 0 to |available|
        invariant i == 0 <==> best.None?
        invariant best.Some? ==> best.value == (FirstBest(available[..i], t), Score(FirstBest(available[..i], t), t))
      {
        var provider := available[i];
        var score := Score(provider, t);
        FirstBestExtend(available, i, t);
        if best.None? || score > best.value.1 {
          best := Some((provider, score));
        }
      }
      // `best` is set on the first iteration, so the "no suitable provider" branch cannot be taken.
      assert available[..|available|] == available;
      FirstBestIsFirstBest(available, t);
      r := Ok(best.value.0);
    }

    /** The scored list of `ps`, each provider paired with its score. */
    function Scored(ps: seq<Provider>, t: TaskType): (r: seq<(Provider, int)>)
      reads this
      ensures |r| == |ps|
      ensures forall k :: 0 <= k < |ps| ==> r[k] == (ps[k], Score(ps[k], t))
    {
      if ps == [] then [] else [(ps[0], Score(ps[0], t))] + Scored(ps[1..], t)
    }

    /** `select_multiple`: the `count` highest-ranked available providers, or `NoProviders` when too few are available. */
    method SelectMultiple(count: nat, t: TaskType, now: nat) returns (r: Result<seq<Provider>>)
      requires Valid()
      ensures r.Err? <==> |AvailableProviders(now)| < count
      ensures r.Err? ==> r.error == NoProviders("need " + NatToString(count) + " providers but only "
                                                + NatToString(|AvailableProviders(now)|) + " available")
      ensures r.Ok? ==> |r.value| == count && Distinct(r.value)
      ensures r.Ok? ==> forall a, b :: 0 <= a < b < |r.value| ==> Score(r.value[a], t) >= Score(r.value[b], t)
      ensures r.Ok? ==> IsTopRanked(AvailableProviders(now), r.value, t)
      ensures r.Ok? ==> TopRanked(count, t, now) == Some(r.value)
    {
      var available := AvailableProviders(now);
      if |available| < count {
        return Err(NoProviders("need " + NatToString(count) + " providers but only "
                               + NatToString(|available|) + " available"));
      }
      AvailableInCatalogOrder(now);
      var scored := Scored(available, t);
      var sorted;
      ghost var origin;
      sorted, origin := SortByScore(scored);
      var selection := seq(count, k requires 0 <= k < count => sorted[k].0);
      ScoredRanking(available, sorted, origin, selection, t);
      TopRankedIs(count, t, now, selection);
      r := Ok(selection);
    }

    /** Translates the order on sorted scored entries back to the ranking of providers. */
    lemma ScoredRanking(available: seq<Provider>, sorted: seq<(Provider, int)>, origin: seq<nat>,
                        selection: seq<Provider>, t: TaskType)
      requires Distinct(available)
      requires |sorted| == |available| && multiset(sorted) == multiset(Scored(available, t))
      requires |origin| == |sorted|
      requires forall k :: 0 <= k < |sorted| ==> origin[k] < |available| && sorted[k] == Scored(available, t)[origin[k]]
      requires forall a, b :: 0 <= a < b < |sorted| ==> Before(sorted, origin, a, b)
      requires |selection| <= |sorted| && forall k :: 0 <= k < |selection| ==> selection[k] == sorted[k].0
      ensures Distinct(selection)
      ensures forall a, b :: 0 <= a < b < |selection| ==> Score(selection[a], t) >= Score(selection[b], t)
      ensures IsTopRanked(available, selection, t)
    {
      SortedEntries(available, sorted, origin, t);
      SelectionInOrder(available, sorted, origin, selection, t);
      SelectionAheadOfRest(available, sorted, origin, selection, t);
    }

    /** Each sorted entry is an available provider with its score, and `origin` is its position in `available`. */
    lemma SortedEntries(available: seq<Provider>, sorted: seq<(Provider, int)>, origin: seq<nat>, t: TaskType)
      requires Distinct(available)
      requires |origin| == |sorted|
      requires forall k :: 0 <= k < |sorted| ==> origin[k] < |available| && sorted[k] == Scored(available, t)[origin[k]]
      ensures forall k :: 0 <= k < |sorted| ==>
                && sorted[k].0 == available[origin[k]] && sorted[k].1 == Score(sorted[k].0, t)
                && sorted[k].0 in available && IndexOf(available, sorted[k].0) == origin[k]
    {
      forall k | 0 <= k < |sorted|
        ensures sorted[k].0 == available[origin[k]] && IndexOf(available, sorted[k].0) == origin[k]
      {
      }
    }

    /** A prefix of the sorted entries is in rank order and names each provider once. */
    lemma SelectionInOrder(available: seq<Provider>, sorted: seq<(Provider, int)>, origin: seq<nat>,
                           selection: seq<Provider>, t: TaskType)
      requires |origin| == |sorted|
      requires forall k :: 0 <= k < |sorted| ==>
                 sorted[k].1 == Score(sorted[k].0, t) && sorted[k].0 in available && IndexOf(available, sorted[k].0) == origin[k]
      requires forall a, b :: 0 <= a < b < |sorted| ==> Before(sorted, origin, a, b)
      requires |selection| <= |sorted| && forall k :: 0 <= k < |selection| ==> selection[k] == sorted[k].0
      ensures Distinct(selection)
      ensures forall a, b :: 0 <= a < b < |selection| ==> Score(selection[a], t) >= Score(selection[b], t)
      ensures forall a, b :: 0 <= a < b < |selection| ==>
                selection[a] in available && selection[b] in available && RankedBefore(available, selection[a], selection[b], t)
    {
      forall a, b | 0 <= a < b < |selection|
        ensures selection[a] in available && selection[b] in available
        ensures RankedBefore(available, selection[a], selection[b], t)
        ensures selection[a] != selection[b]
      {
        assert Before(sorted, origin, a, b);
      }
    }

    /** A permutation of the scored providers holds an entry for each available provider `q`. */
    lemma EntryOf(available: seq<Provider>, sorted: seq<(Provider, int)>, q: Provider, t: TaskType) returns (b: nat)
      requires q in available && multiset(sorted) == multiset(Scored(available, t))
      ensures b < |sorted| && sorted[b].0 == q
    {
      var scored := Scored(available, t);
      var m := IndexOf(available, q);
      assert scored[m] in multiset(sorted);
      b :| 0 <= b < |sorted| && sorted[b] == scored[m];
    }

    /** Every provider in a prefix of the sorted entries ranks ahead of every available provider outside it. */
    lemma SelectionAheadOfRest(available: seq<Provider>, sorted: seq<(Provider, int)>, origin: seq<nat>,
                               selection: seq<Provider>, t: TaskType)
      requires |sorted| == |available| && multiset(sorted) == multiset(Scored(available, t))
      requires |origin| == |sorted|
      requires forall k :: 0 <= k < |sorted| ==>
                 sorted[k].1 == Score(sorted[k].0, t) && sorted[k].0 in available && IndexOf(available, sorted[k].0) == origin[k]
      requires forall a, b :: 0 <= a < b < |sorted| ==> Before(sorted, origin, a, b)
      requires |selection| <= |sorted| && forall k :: 0 <= k < |selection| ==> selection[k] == sorted[k].0
      ensures forall x, q :: x in selection && q in available && q !in selection ==> RankedBefore(available, x, q, t)
    {
      forall x, q | x in selection && q in available && q !in selection
        ensures RankedBefore(available, x, q, t)
      {
        var a :| 0 <= a < |selection| && selection[a] == x;
        var b := EntryOf(available, sorted, q, t);
        assert b >= |selection|;
        assert Before(sorted, origin, a, b);
      }
    }

    /** `record_success`: reset the failure run, update the latency average, count one successful request. */
    method RecordSuccess(p: Provider, latencyMs: nat, now: nat)
      requires Valid()
      modifies this
      ensures Valid()
      ensures preferences == old(preferences)
      ensures health == old(health)[p := old(HealthOf(p)).RecordSuccess(latencyMs, now)]
      ensures stats == old(stats)[p := old(StatsOf(p)).CountSuccess()]
      ensures stats[p].totalRequests == old(StatsOf(p)).totalRequests + 1
      ensures IsHealthy(p, now)
    {
      var h := HealthOf(p);
      health := health[p := h.RecordSuccess(latencyMs, now)];
      var s := StatsOf(p);
      BalancedUpdate(stats, p, s.CountSuccess());
      stats := stats[p := s.CountSuccess()];
    }

    /** `record_failure`: extend the failure run, count one failed request; the provider's score drops. */
    method RecordFailure(p: Provider, now: nat)
      requires Valid()
      modifies this
      ensures Valid()
      ensures preferences == old(preferences)
      ensures health == old(health)[p := old(HealthOf(p)).RecordFailure(now)]
      ensures stats == old(stats)[p := old(StatsOf(p)).CountFailure()]
      ensures stats[p].totalRequests == old(StatsOf(p)).totalRequests + 1
      ensures forall t :: Score(p, t) < old(Score(p, t))
      ensures forall q, t :: q != p ==> Score(q, t) == old(Score(q, t))
    {
      FailureRanking(catalog, preferences, health, stats, p, now);
      var h := HealthOf(p);
      health := health[p := h.RecordFailure(now)];
      var s := StatsOf(p);
      BalancedUpdate(stats, p, s.CountFailure());
      stats := stats[p := s.CountFailure()];
    }

    /** `get_stats`: a copy of the usage records; every entry is balanced. */
    function GetStats(): (r: map<Provider, ProviderStats>)
      reads this
      requires Valid()
      ensures AllBalanced(r)
    {
      stats
    }
  }

  /**
   * With default preferences and no history, a search task goes to a search provider whenever
   * some available search provider has a default priority above 50.
   */
  lemma DefaultSearchPrefersSearchProvider(r: ProviderRouter, p: Provider, best: Provider, now: nat)
    requires r.preferences == DefaultPreferences() && r.health == map[] && r.stats == map[]
    requires p in r.catalog.all && p in r.catalog.search && r.preferences.Priority(p) > DefaultPriority
    requires r.IsFirstBest(r.AvailableProviders(now), best, Search)
    ensures best in r.catalog.search
  {
    assert r.IsHealthy(p, now);
    assert p in r.AvailableProviders(now);
    assert r.Score(p, Search) > 1000;
    assert r.preferences.Priority(best) <= 100;
  }

  /** With no history every catalogue provider is available, so a general task always finds one. */
  lemma FreshRouterHasProviders(r: ProviderRouter, now: nat)
    requires r.health == map[] && |r.catalog.all| > 0
    ensures r.AvailableProviders(now) == r.catalog.all
  {
    FreshAvailable(r, r.catalog.all, now);
  }

  lemma {:induction false} FreshAvailable(r: ProviderRouter, ps: seq<Provider>, now: nat)
    requires r.health == map[]
    ensures r.HealthyAmong(ps, now) == ps
  {
    if ps != [] {
      FreshAvailable(r, ps[1..], now);
      assert ps == [ps[0]] + ps[1..];
    }
  }
}
