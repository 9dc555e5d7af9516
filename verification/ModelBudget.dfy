/** The budgeted turn loop of the OpenAI-compatible runner and the tail that
    records its cost (openairunner.go, finishrun.go, prices.go). Money is `real`. */
module ModelBudget {
  import opened Wrappers
  import ToolState

  datatype Usage = Usage(promptTokens: int, completionTokens: int)

  datatype Prices = Prices(input: real, output: real)

  function Cost(p: Prices, u: Usage): real {
    if u.promptTokens < 0 || u.completionTokens < 0 then 0.0
    else (u.promptTokens as real * p.input + u.completionTokens as real * p.output) / 1000000.0
  }

  predicate NonNegative(p: Prices) { p.input >= 0.0 && p.output >= 0.0 }

  lemma CostNonNegative(p: Prices, u: Usage)
    requires NonNegative(p)
    ensures Cost(p, u) >= 0.0
  {
    if u.promptTokens >= 0 && u.completionTokens >= 0 {
      ProductNonNegative(u.promptTokens as real, p.input);
      ProductNonNegative(u.completionTokens as real, p.output);
    }
  }

  /** Prices are per million tokens of each kind, costs of separate uses add up, and a
      negative count prices at nothing: that is all there is to a cost. */
  lemma CostMeans(p: Prices, u: Usage, v: Usage)
    ensures Cost(p, Usage(1000000, 0)) == p.input && Cost(p, Usage(0, 1000000)) == p.output
    ensures u.promptTokens >= 0 && u.completionTokens >= 0 && v.promptTokens >= 0 && v.completionTokens >= 0 ==>
              Cost(p, Usage(u.promptTokens + v.promptTokens, u.completionTokens + v.completionTokens)) == Cost(p, u) + Cost(p, v)
    ensures u.promptTokens < 0 || u.completionTokens < 0 ==> Cost(p, u) == 0.0
  {
    PriceAdds(u.promptTokens, v.promptTokens, p.input);
    PriceAdds(u.completionTokens, v.completionTokens, p.output);
  }

  lemma PriceAdds(m: int, n: int, price: real)
    ensures (m + n) as real * price == m as real * price + n as real * price
  {
  }

  lemma ProductNonNegative(x: real, y: real)
    requires x >= 0.0 && y >= 0.0
    ensures x * y >= 0.0
  {
  }

  /** The worker's own cap, lowered to the server's per-job cap for a pool job: the
      least of the positive ones, and no cap (zero or less) only without either. */
  function JobBudget(configured: real, poolMode: bool, serverCap: real): (b: real)
    ensures poolMode && serverCap > 0.0 ==> 0.0 < b <= serverCap
    ensures configured > 0.0 ==> 0.0 < b <= configured
    ensures b > 0.0 <==> configured > 0.0 || (poolMode && serverCap > 0.0)
    ensures b == configured || (poolMode && b == serverCap)
  {
    if !poolMode || serverCap <= 0.0 then configured
    else if configured <= 0.0 || serverCap < configured then serverCap
    else configured
  }

  // ----- a run and its log -----

  /** A tool call of the model: one of the state-changing tools, or a call that
      cannot change the job (a read, an unknown tool, unreadable arguments). */
  datatype ToolCall = Acts(call: ToolState.Call) | Inert

  /** What a provider exchange, retries included, ends in. */
  datatype Turn =
    | Canceled
    | ProviderRefused(status429: bool)
    | Answered(usage: Option<Usage>, calls: seq<ToolCall>)

  datatype Exit = Success | MaxTurns | MaxBudget | NoUsage | Provider429 | Provider | ContextCanceled

  predicate IsError(e: Exit) { e != Success }

  datatype Event =
    | Spent(cost: Option<real>)  // an answered turn; None is unknown usage
    | Ran(call: ToolCall)
    | Reported(amount: real, isError: bool)

  /** A run's surroundings: `provider(n)` is what the n-th exchange ends in. */
  datatype Setup = Setup(provider: nat -> Turn, prices: Prices, budget: real, maxTurns: int)

  function PriceOf(p: Prices, usage: Option<Usage>): Option<real> {
    if usage.Some? then Some(Cost(p, usage.value)) else None
  }

  /** What a log adds up to; `ran` counts the tool calls of the latest turn. */
  datatype Tally = Tally(turns: nat, ran: nat, total: real, last: real, observed: bool, missing: bool,
                         tools: ToolState.State, reports: nat)

  function Add(t: Tally, e: Event): Tally {
    match e
    case Spent(None) => t.(turns := t.turns + 1, ran := 0, last := 0.0, missing := true)
    case Spent(Some(c)) => t.(turns := t.turns + 1, ran := 0, total := t.total + c, last := c, observed := true)
    case Ran(Inert) => t.(ran := t.ran + 1)
    case Ran(Acts(call)) => t.(ran := t.ran + 1, tools := ToolState.Step(t.tools, call))
    case Reported(_, _) => t.(reports := t.reports + 1)
  }

  function Sum(log: seq<Event>): Tally {
    if log == [] then Tally(0, 0, 0.0, 0.0, false, false, ToolState.START, 0)
    else Add(Sum(log[..|log| - 1]), log[|log| - 1])
  }

  predicate InBudget(s: Setup, t: Tally) { s.budget > 0.0 ==> t.total <= s.budget && !t.missing }

  /** The tool calls the latest turn asked for. */
  function Asked(s: Setup, t: Tally): seq<ToolCall> {
    if t.turns > 0 && s.provider(t.turns - 1).Answered? then s.provider(t.turns - 1).calls else []
  }

  /** The next turn is due: the latest one asked for tools and all of them ran. */
  predicate TurnDue(s: Setup, t: Tally) {
    InBudget(s, t) && !t.tools.completed && (t.turns > 0 ==> t.ran == |Asked(s, t)| > 0)
  }

  /** When an event may happen, after a log that adds up to t. A turn is asked for,
      and a tool run, only while the known cost is within the budget, no spend is
      unknown, the job is not complete and its cost is not yet reported. */
  predicate Allowed(s: Setup, t: Tally, e: Event) {
    && t.reports == 0
    && match e
       case Spent(cost) =>
         && TurnDue(s, t) && t.turns < s.maxTurns
         && s.provider(t.turns).Answered? && cost == PriceOf(s.prices, s.provider(t.turns).usage)
       case Ran(call) =>
         && InBudget(s, t) && !t.tools.completed
         && t.ran < |Asked(s, t)| && call == Asked(s, t)[t.ran]
       case Reported(amount, _) => t.observed && amount == t.total
  }

  /** Every event of the log was allowed when it happened. */
  predicate Disciplined(s: Setup, log: seq<Event>) {
    log != [] ==> Disciplined(s, log[..|log| - 1]) && Allowed(s, Sum(log[..|log| - 1]), log[|log| - 1])
  }

  /** The exit says how the log ended. */
  predicate Explains(s: Setup, t: Tally, exit: Exit) {
    match exit
    case MaxBudget => s.budget > 0.0 && t.total > s.budget
    case NoUsage => s.budget > 0.0 && t.missing
    case Success => InBudget(s, t) && t.turns > 0 && (t.tools.completed || Asked(s, t) == [])
    case MaxTurns => TurnDue(s, t) && t.turns >= s.maxTurns
    case ContextCanceled => TurnDue(s, t) && t.turns < s.maxTurns && s.provider(t.turns).Canceled?
    case Provider429 => TurnDue(s, t) && t.turns < s.maxTurns && s.provider(t.turns) == ProviderRefused(true)
    case Provider => TurnDue(s, t) && t.turns < s.maxTurns && s.provider(t.turns) == ProviderRefused(false)
  }

  lemma Append(s: Setup, log: seq<Event>, e: Event)
    requires Disciplined(s, log) && Allowed(s, Sum(log), e)
    ensures Disciplined(s, log + [e]) && Sum(log + [e]) == Add(Sum(log), e)
  {
    assert (log + [e])[..|log|] == log;
  }

  /** The discipline at every point of the run, not only at its end. */
  lemma {:induction false} AllowedAt(s: Setup, log: seq<Event>, i: nat)
    requires Disciplined(s, log) && i < |log|
    ensures Allowed(s, Sum(log[..i]), log[i])
  {
    if i < |log| - 1 {
      AllowedAt(s, log[..|log| - 1], i);
      assert log[..|log| - 1][..i] == log[..i];
    }
  }

  /** The final cost is at most the budget plus the latest turn, so at most the
      budget plus whatever one turn can cost. */
  lemma {:induction false} CostIsBounded(s: Setup, log: seq<Event>, most: real)
    requires Disciplined(s, log) && s.budget > 0.0 && most >= 0.0
    requires forall n: nat :: s.provider(n).Answered? && s.provider(n).usage.Some? ==>
               Cost(s.prices, s.provider(n).usage.value) <= most
    ensures Sum(log).last <= most
    ensures Sum(log).total <= s.budget + Sum(log).last || Sum(log).total <= s.budget
    ensures Sum(log).total <= s.budget + most
  {
    if log != [] { CostIsBounded(s, log[..|log| - 1], most); }
  }

  /** What the first n exchanges cost together. */
  function SpendOf(s: Setup, n: nat): real {
    if n == 0 then 0.0
    else
      var t := s.provider(n - 1);
      SpendOf(s, n - 1) + if t.Answered? && t.usage.Some? then Cost(s.prices, t.usage.value) else 0.0
  }

  predicate Priced(s: Setup, n: nat) { s.provider(n).Answered? && s.provider(n).usage.Some? }

  /** What a disciplined log adds up to, read off the provider: every exchange it took
      was answered, its total is what they cost together, and it knows whether some
      usage was given and whether some was missing. */
  lemma {:induction false} TotalIsWhatWasSpent(s: Setup, log: seq<Event>)
    requires Disciplined(s, log)
    ensures var t := Sum(log);
            && (forall n: nat :: n < t.turns ==> s.provider(n).Answered?)
            && t.total == SpendOf(s, t.turns)
            && (t.observed <==> exists n: nat :: n < t.turns && Priced(s, n))
            && (t.missing <==> exists n: nat :: n < t.turns && !Priced(s, n))
  {
    if log != [] {
      var t := Sum(log[..|log| - 1]);
      TotalIsWhatWasSpent(s, log[..|log| - 1]);
      if log[|log| - 1].Spent? {
        assert Priced(s, t.turns) <==> log[|log| - 1].cost.Some?;
      }
    }
  }

  /** The state-changing calls of a log, in order. */
  function ActsOf(log: seq<Event>): seq<ToolState.Call> {
    if log == [] then []
    else
      var e := log[|log| - 1];
      ActsOf(log[..|log| - 1]) + if e.Ran? && e.call.Acts? then [e.call.call] else []
  }

  /** The job's tool state is the one its calls lead to. */
  lemma {:induction false} ToolsRanInOrder(log: seq<Event>)
    ensures Sum(log).tools == ToolState.Run(ToolState.START, ActsOf(log))
  {
    if log != [] {
      var acts := ActsOf(log[..|log| - 1]);
      ToolsRanInOrder(log[..|log| - 1]);
      if ActsOf(log) != acts {
        assert ActsOf(log)[..|acts|] == acts;
      }
    }
  }

  // ----- the runner -----

  method Dispatch(builder: ToolState.ToolBuilder, call: ToolState.Call) returns (r: ToolState.ToolResult)
    modifies builder
    ensures builder.Now() == ToolState.Step(old(builder.Now()), call)
  {
    match call {
      case ProposeReply(text, a) => r := builder.HandleProposeReply(text, a);
      case RequestApproval(text, a) => r := builder.HandleRequestApproval(text, a);
      case SendSummary(text, a) => r := builder.HandleSendSummary(text, a);
      case SaveLead(anyField, a) => r := builder.HandleSaveLead(anyField, a);
      case PauseAutopilot(a) => r := builder.HandlePause(a);
      case Complete(status, a) => r := builder.HandleComplete(status, a);
    }
  }

  /** recordRunCost: nothing without an observed cost, and never a negative one. */
  method RecordRunCost(log0: seq<Event>, cost: Option<real>, isError: bool) returns (log: seq<Event>)
    ensures log == if cost.Some? && cost.value >= 0.0 then log0 + [Reported(cost.value, isError)] else log0
  {
    log := log0;
    if cost.None? { return; }
    if cost.value < 0.0 { return; }
    log := log + [Reported(cost.value, isError)];
  }

  /** The server's durable answer: whose job, which attempt, whether terminal. */
  datatype JobStatus = JobStatus(jobID: int, attempt: int, terminal: bool)

  /** finishRun: a run counts as done only if the server says so for this attempt. */
  method FinishRun(log0: seq<Event>, cost: Option<real>, exit: Exit, jobID: int, attempt: int, status: Option<JobStatus>)
    returns (log: seq<Event>, done: bool)
    ensures log == if cost.Some? && cost.value >= 0.0 then log0 + [Reported(cost.value, IsError(exit))] else log0
    ensures done <==> exit == Success && status == Some(JobStatus(jobID, attempt, true))
  {
    log := RecordRunCost(log0, cost, IsError(exit));
    if IsError(exit) { return log, false; }
    if status.None? { return log, false; }
    if status.value.jobID != jobID || status.value.attempt != attempt || !status.value.terminal { return log, false; }
    return log, true;
  }

  const DEFAULT_MAX_TURNS := 12

  /** The locals of the turn loop agree with the log. */
  predicate Books(s: Setup, log: seq<Event>, turns: int, totalCost: real, observed: bool, tools: ToolState.State) {
    var t := Sum(log);
    && Disciplined(s, log) && t.reports == 0
    && t.turns == turns && t.total == totalCost && t.observed == observed && t.tools == tools
    && (NonNegative(s.prices) ==> totalCost >= 0.0)
  }

  /** How a run ends: its log was disciplined, its exit is explained by the log, and
      an observed cost was reported in exactly one call, as an error's unless the run
      was a success. */
  predicate Ended(s: Setup, log: seq<Event>, exit: Exit) {
    && Disciplined(s, log) && Explains(s, Sum(log), exit)
    && ReportsSay(log, exit != Success)
    && (NonNegative(s.prices) ==> Sum(log).reports == if Sum(log).observed then 1 else 0)
  }

  lemma {:induction false} NoneReported(log: seq<Event>)
    requires Sum(log).reports == 0
    ensures forall i :: 0 <= i < |log| ==> !log[i].Reported?
  {
    if log != [] { NoneReported(log[..|log| - 1]); }
  }

  predicate ReportsSay(log: seq<Event>, failed: bool) {
    forall i :: 0 <= i < |log| && log[i].Reported? ==> log[i].isError == failed
  }

  lemma LastReportSays(log: seq<Event>, amount: real, failed: bool)
    requires Sum(log).reports == 0
    ensures ReportsSay(log, failed) && ReportsSay(log + [Reported(amount, failed)], failed)
  {
    NoneReported(log);
  }

  lemma Ends(s: Setup, log: seq<Event>, turns: int, totalCost: real, observed: bool, tools: ToolState.State,
             exit: Exit, isError: bool, end: seq<Event>)
    requires Books(s, log, turns, totalCost, observed, tools) && Explains(s, Sum(log), exit) && isError == (exit != Success)
    requires end == if observed && totalCost >= 0.0 then log + [Reported(totalCost, isError)] else log
    ensures Ended(s, end, exit) && Sum(end).turns == turns
  {
    LastReportSays(log, totalCost, isError);
    if observed && totalCost >= 0.0 { Append(s, log, Reported(totalCost, isError)); }
  }

  lemma BooksSpend(s: Setup, log: seq<Event>, turns: nat, totalCost: real, observed: bool, tools: ToolState.State)
    requires Books(s, log, turns, totalCost, observed, tools) && TurnDue(s, Sum(log)) && turns < s.maxTurns
    requires s.provider(turns).Answered?
    ensures var cost := PriceOf(s.prices, s.provider(turns).usage);
            && Books(s, log + [Spent(cost)], turns + 1, if cost.Some? then totalCost + cost.value else totalCost,
                     observed || cost.Some?, tools)
            && Sum(log + [Spent(cost)]) == Add(Sum(log), Spent(cost))
  {
    Append(s, log, Spent(PriceOf(s.prices, s.provider(turns).usage)));
    if s.provider(turns).usage.Some? && NonNegative(s.prices) {
      CostNonNegative(s.prices, s.provider(turns).usage.value);
    }
  }

  /** The turn loop of OpenAIRunner.Run. A cancelled run, too, reports its cost and
      is not done. */
  method Run(provider: nat -> Turn, prices: Prices, configured: real, poolMode: bool, serverCap: real,
             configuredTurns: int, jobID: int, attempt: int, status: Option<JobStatus>)
    returns (exit: Exit, log: seq<Event>, done: bool)
    ensures Ended(SetupOf(provider, prices, configured, poolMode, serverCap, configuredTurns), log, exit)
    ensures var most := if configuredTurns > 0 then configuredTurns else 12;
            Sum(log).turns <= most && (exit == MaxTurns <==> Sum(log).turns == most && TurnDue(SetupOf(provider, prices, configured, poolMode, serverCap, configuredTurns), Sum(log)))
    ensures done <==> exit == Success && status == Some(JobStatus(jobID, attempt, true))
  {
    ghost var s := SetupOf(provider, prices, configured, poolMode, serverCap, configuredTurns);
    var maxBudget := JobBudget(configured, poolMode, serverCap);
    var builder := new ToolState.ToolBuilder();
    var maxTurns := configuredTurns;
    if maxTurns <= 0 {
      maxTurns := DEFAULT_MAX_TURNS;
    }
    var totalCost, costObserved, turns := 0.0, false, 0;
    log := [];
    exit := MaxTurns;
    var stopped := false;
    while turns < maxTurns && !stopped
      invariant 0 <= turns <= maxTurns
      invariant fresh(builder)
      invariant Books(s, log, turns, totalCost, costObserved, builder.Now())
      invariant if stopped then Explains(s, Sum(log), exit) else TurnDue(s, Sum(log)) && exit == MaxTurns
      decreases maxTurns - turns, !stopped
    {
      var out := provider(turns);
      if out.Canceled? {
        exit, stopped := ContextCanceled, true;
      } else if out.ProviderRefused? {
        exit, stopped := if out.status429 then Provider429 else Provider, true;
      } else {
        log, totalCost, costObserved, exit, stopped :=
          RunTurn(s, builder, out, prices, maxBudget, log, turns, totalCost, costObserved);
        turns := turns + 1;
      }
    }
    ghost var before := log;
    log, done := FinishRun(log, if costObserved then Some(totalCost) else None, exit, jobID, attempt, status);
    Ends(s, before, turns, totalCost, costObserved, builder.Now(), exit, IsError(exit), log);
  }

  /** One answered turn: account for it, stop on unknown or excessive spend before
      any tool runs, then run its tools. */
  method RunTurn(ghost s: Setup, builder: ToolState.ToolBuilder, out: Turn, prices: Prices, maxBudget: real,
                 log0: seq<Event>, ghost turns: nat, totalCost0: real, observed0: bool)
    returns (log: seq<Event>, totalCost: real, observed: bool, exit: Exit, stopped: bool)
    requires Books(s, log0, turns, totalCost0, observed0, builder.Now()) && TurnDue(s, Sum(log0)) && turns < s.maxTurns
    requires out == s.provider(turns) && out.Answered? && prices == s.prices && maxBudget == s.budget
    modifies builder
    ensures Books(s, log, turns + 1, totalCost, observed, builder.Now())
    ensures if stopped then Explains(s, Sum(log), exit) else TurnDue(s, Sum(log)) && exit == MaxTurns
  {
    BooksSpend(s, log0, turns, totalCost0, observed0, builder.Now());
    log, totalCost, observed := log0 + [Spent(PriceOf(prices, out.usage))], totalCost0, observed0;
    if out.usage.None? {
      if maxBudget > 0.0 { return log, totalCost, observed, NoUsage, true; }
    } else {
      observed := true;
      totalCost := totalCost + Cost(prices, out.usage.value);
    }
    if maxBudget > 0.0 && totalCost > maxBudget { return log, totalCost, observed, MaxBudget, true; }
    if out.calls == [] { return log, totalCost, observed, Success, true; }
    log, stopped := RunTools(s, builder, out.calls, log, turns + 1, totalCost, observed);
    exit := if stopped then Success else MaxTurns;
  }

  /** The tool calls of one turn, up to the one that completes the job. */
  method RunTools(ghost s: Setup, builder: ToolState.ToolBuilder, calls: seq<ToolCall>, log0: seq<Event>,
                  ghost turns: nat, ghost totalCost: real, ghost observed: bool)
    returns (log: seq<Event>, finished: bool)
    requires Books(s, log0, turns, totalCost, observed, builder.Now()) && InBudget(s, Sum(log0))
    requires turns > 0 && Sum(log0).ran == 0 && Asked(s, Sum(log0)) == calls && !builder.completed
    modifies builder
    ensures Books(s, log, turns, totalCost, observed, builder.Now()) && InBudget(s, Sum(log))
    ensures finished == builder.completed && Asked(s, Sum(log)) == calls
    ensures !finished ==> Sum(log).ran == |calls|
  {
    log := log0;
    var i := 0;
    while i < |calls|
      invariant 0 <= i <= |calls| && Sum(log).ran == i && Asked(s, Sum(log)) == calls && !builder.completed
      invariant Books(s, log, turns, totalCost, observed, builder.Now()) && InBudget(s, Sum(log))
    {
      Append(s, log, Ran(calls[i]));
      log := log + [Ran(calls[i])];
      if calls[i].Acts? {
        var _ := Dispatch(builder, calls[i].call);
      }
      i := i + 1;
      if builder.completed { return log, true; }
    }
    finished := false;
  }

  function SetupOf(provider: nat -> Turn, prices: Prices, configured: real, poolMode: bool, serverCap: real,
                   configuredTurns: int): Setup
  {
    Setup(provider, prices, JobBudget(configured, poolMode, serverCap),
          if configuredTurns <= 0 then DEFAULT_MAX_TURNS else configuredTurns)
  }
}
