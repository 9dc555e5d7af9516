/** The tool state of one job: a state machine over whatever tool calls a model
    makes (internal/agentworker/mcpserver.go). One mutex serialises the
    state-changing handlers, so a run is a sequence of calls. */
module ToolState {
  import opened Wrappers

  /** A tool call with the arguments that matter and the answer the agent API
      gives if it is reached; `ids` are action or lead ids. */
  datatype Call =
    | ProposeReply(text: string, answer: Result<int, string>)
    | RequestApproval(text: string, answer: Result<int, string>)
    | SendSummary(text: string, answer: Result<int, string>)
    | SaveLead(anyField: bool, answer: Result<int, string>)
    | PauseAutopilot(answer: Result<int, string>)
    | Complete(status: string, answer: Result<int, string>)

  datatype JobResult = JobResult(actionID: int, leadID: int)

  /** A write that reached the agent API, with its answer. */
  datatype Write =
    | Replied(answer: Result<int, string>)
    | AskedOwner(answer: Result<int, string>)
    | Summarised(answer: Result<int, string>)
    | SavedLead(answer: Result<int, string>)
    | Paused(answer: Result<int, string>)
    | Completed(status: string, result: JobResult, answer: Result<int, string>)

  datatype ToolResult = ToolOk | ToolError(reason: string)

  datatype State = State(completed: bool, actionID: int, leadID: int, writes: seq<Write>)

  const START := State(false, 0, 0, [])

  function Log(s: State, w: Write): State { s.(writes := s.writes + [w]) }

  /** What one call does: the specification of the six handlers. */
  function Step(s: State, c: Call): State {
    if s.completed then s
    else match c
      case ProposeReply(text, a) =>
        if text == "" then s
        else if a.Ok? then Log(s, Replied(a)).(actionID := a.value) else Log(s, Replied(a))
      case RequestApproval(text, a) =>
        if text == "" then s
        else if a.Ok? then Log(s, AskedOwner(a)).(actionID := a.value) else Log(s, AskedOwner(a))
      case SendSummary(text, a) =>
        if text == "" then s
        else if a.Ok? && a.value != 0 && s.actionID == 0 then Log(s, Summarised(a)).(actionID := a.value)
        else Log(s, Summarised(a))
      case SaveLead(anyField, a) =>
        if !anyField then s
        else if a.Ok? then Log(s, SavedLead(a)).(leadID := a.value) else Log(s, SavedLead(a))
      case PauseAutopilot(a) => Log(s, Paused(a))
      case Complete(status, a) =>
        if status == "" then s
        else
          var result := if status == "completed" then JobResult(s.actionID, s.leadID) else JobResult(0, 0);
          Log(s, Completed(status, result, a)).(completed := a.Ok?)
  }

  function Run(s: State, calls: seq<Call>): State {
    if calls == [] then s else Step(Run(s, calls[..|calls| - 1]), calls[|calls| - 1])
  }

  class ToolBuilder {
    var completed: bool
    var resultActionID: int
    var resultLeadID: int
    ghost var writes: seq<Write>

    ghost function Now(): State
      reads this
    {
      State(completed, resultActionID, resultLeadID, writes)
    }

    constructor ()
      ensures Now() == START
    {
      completed, resultActionID, resultLeadID, writes := false, 0, 0, [];
    }

    method HandleProposeReply(text: string, answer: Result<int, string>) returns (r: ToolResult)
      modifies this
      ensures Now() == old(Step(Now(), ProposeReply(text, answer)))
      ensures r.ToolOk? <==> !old(completed) && text != "" && answer.Ok?
    {
      if completed { return ToolError("already completed"); }
      if text == "" { return ToolError("text is required"); }
      writes := writes + [Replied(answer)];
      if answer.Err? { return ToolError(answer.error); }
      resultActionID := answer.value;
      return ToolOk;
    }

    method HandleRequestApproval(text: string, answer: Result<int, string>) returns (r: ToolResult)
      modifies this
      ensures Now() == old(Step(Now(), RequestApproval(text, answer)))
      ensures r.ToolOk? <==> !old(completed) && text != "" && answer.Ok?
    {
      if completed { return ToolError("already completed"); }
      if text == "" { return ToolError("text is required"); }
      writes := writes + [AskedOwner(answer)];
      if answer.Err? { return ToolError(answer.error); }
      resultActionID := answer.value;
      return ToolOk;
    }

    method HandleSendSummary(text: string, answer: Result<int, string>) returns (r: ToolResult)
      modifies this
      ensures Now() == old(Step(Now(), SendSummary(text, answer)))
      ensures r.ToolOk? <==> !old(completed) && text != "" && answer.Ok?
    {
      if completed { return ToolError("already completed"); }
      if text == "" { return ToolError("text is required"); }
      writes := writes + [Summarised(answer)];
      if answer.Err? { return ToolError(answer.error); }
      if answer.value != 0 && resultActionID == 0 {
        resultActionID := answer.value;
      }
      return ToolOk;
    }

    method HandleSaveLead(anyField: bool, answer: Result<int, string>) returns (r: ToolResult)
      modifies this
      ensures Now() == old(Step(Now(), SaveLead(anyField, answer)))
      ensures r.ToolOk? <==> !old(completed) && anyField && answer.Ok?
    {
      if completed { return ToolError("already completed"); }
      if !anyField { return ToolError("nothing to save"); }
      writes := writes + [SavedLead(answer)];
      if answer.Err? { return ToolError(answer.error); }
      resultLeadID := answer.value;
      return ToolOk;
    }

    method HandlePause(answer: Result<int, string>) returns (r: ToolResult)
      modifies this
      ensures Now() == old(Step(Now(), PauseAutopilot(answer)))
      ensures r.ToolOk? <==> !old(completed) && answer.Ok?
    {
      if completed { return ToolError("already completed"); }
      writes := writes + [Paused(answer)];
      if answer.Err? { return ToolError(answer.error); }
      return ToolOk;
    }

    method HandleComplete(status: string, answer: Result<int, string>) returns (r: ToolResult)
      modifies this
      ensures Now() == old(Step(Now(), Complete(status, answer)))
      ensures r.ToolOk? <==> !old(completed) && status != "" && answer.Ok?
      ensures completed <==> old(completed) || r.ToolOk?
    {
      if completed { return ToolError("already completed"); }
      if status == "" { return ToolError("status is required"); }
      var result := JobResult(0, 0);
      if status == "completed" {
        result := JobResult(resultActionID, resultLeadID);
      }
      writes := writes + [Completed(status, result, answer)];
      if answer.Err? { return ToolError(answer.error); }
      completed := true;
      return ToolOk;
    }
  }

  // ----- what a log of writes links, without the folded state -----

  predicate IsResult(w: Write) { (w.Replied? || w.AskedOwner?) && w.answer.Ok? }

  predicate IsSummary(w: Write) { w.Summarised? && w.answer.Ok? && w.answer.value != 0 }

  predicate IsLead(w: Write) { w.SavedLead? && w.answer.Ok? }

  predicate Succeeded(w: Write) { w.Completed? && w.answer.Ok? }

  /** `from` is just after the latest successful reply or approval. */
  predicate AfterLastResult(log: seq<Write>, from: nat) {
    && from <= |log|
    && (from > 0 ==> IsResult(log[from - 1]))
    && (forall i :: from <= i < |log| ==> !IsResult(log[i]))
  }

  predicate FirstSummary(log: seq<Write>, from: nat, k: nat) {
    from <= k < |log| && IsSummary(log[k]) && forall i :: from <= i < k ==> !IsSummary(log[i])
  }

  /** The action a log links: the latest successful reply or approval if it has an
      id, otherwise the first summary with an id after it, otherwise none. */
  ghost predicate Links(log: seq<Write>, from: nat, id: int) {
    && AfterLastResult(log, from)
    && var latest := if from == 0 then 0 else log[from - 1].answer.value;
       if latest != 0 then id == latest
       else (id == 0 && forall i :: from <= i < |log| ==> !IsSummary(log[i])) ||
            (exists k: nat :: FirstSummary(log, from, k) && id == log[k].answer.value)
  }

  ghost predicate LinkedAction(log: seq<Write>, id: int) { exists from: nat :: Links(log, from, id) }

  ghost predicate LinkedLead(log: seq<Write>, id: int) {
    || (id == 0 && forall i :: 0 <= i < |log| ==> !IsLead(log[i]))
    || (exists i :: 0 <= i < |log| && IsLead(log[i]) && log[i].answer.value == id &&
          forall j :: i < j < |log| ==> !IsLead(log[j]))
  }

  lemma LastResultUnique(log: seq<Write>, m: nat, n: nat)
    requires AfterLastResult(log, m) && AfterLastResult(log, n)
    ensures m == n
  {
    assert m > 0 ==> IsResult(log[m - 1]);
    assert n > 0 ==> IsResult(log[n - 1]);
  }

  lemma LinkedActionUnique(log: seq<Write>, a: int, b: int)
    requires LinkedAction(log, a) && LinkedAction(log, b)
    ensures a == b
  {
    var m: nat :| Links(log, m, a);
    var n: nat :| Links(log, n, b);
    LastResultUnique(log, m, n);
  }

  lemma LinkedAppend(log: seq<Write>, id: int, w: Write)
    requires LinkedAction(log, id)
    ensures LinkedAction(log + [w],
                         if IsResult(w) then w.answer.value
                         else if IsSummary(w) && id == 0 then w.answer.value
                         else id)
  {
    var from: nat :| Links(log, from, id);
    var next := log + [w];
    assert forall i :: 0 <= i < |log| ==> next[i] == log[i];
    if IsResult(w) {
      assert Links(next, |next|, w.answer.value);
    } else if IsSummary(w) && id == 0 {
      assert FirstSummary(next, from, |log|);
      assert Links(next, from, w.answer.value);
    } else {
      if k: nat :| FirstSummary(log, from, k) && id == log[k].answer.value {
        assert FirstSummary(next, from, k);
      }
      assert Links(next, from, id);
    }
  }

  lemma LeadAppend(log: seq<Write>, id: int, w: Write)
    requires LinkedLead(log, id)
    ensures LinkedLead(log + [w], if IsLead(w) then w.answer.value else id)
  {
    var next := log + [w];
    assert forall i :: 0 <= i < |log| ==> next[i] == log[i];
    if IsLead(w) {
      assert next[|log|] == w;
    } else if i :| 0 <= i < |log| && IsLead(log[i]) && log[i].answer.value == id &&
                   forall j :: i < j < |log| ==> !IsLead(log[j]) {
      assert IsLead(next[i]);
    }
  }

  // ----- every run -----

  ghost predicate CompleteSound(log: seq<Write>, i: nat)
    requires i < |log| && log[i].Completed?
  {
    if log[i].status == "completed" then
      LinkedAction(log[..i], log[i].result.actionID) && LinkedLead(log[..i], log[i].result.leadID)
    else log[i].result == JobResult(0, 0)
  }

  ghost predicate Sound(s: State) {
    && LinkedAction(s.writes, s.actionID) && LinkedLead(s.writes, s.leadID)
    && (s.completed <==> s.writes != [] && Succeeded(s.writes[|s.writes| - 1]))
    && (forall i :: 0 <= i < |s.writes| - 1 ==> !Succeeded(s.writes[i]))
    && (forall i :: 0 <= i < |s.writes| && s.writes[i].Completed? ==> CompleteSound(s.writes, i))
  }

  lemma LogSound(s: State, w: Write, s': State)
    requires Sound(s) && !s.completed && s'.writes == s.writes + [w] && s'.completed == Succeeded(w)
    requires s'.actionID == if IsResult(w) || (IsSummary(w) && s.actionID == 0) then w.answer.value else s.actionID
    requires s'.leadID == if IsLead(w) then w.answer.value else s.leadID
    requires w.Completed? ==> w.result == if w.status == "completed" then JobResult(s.actionID, s.leadID) else JobResult(0, 0)
    ensures Sound(s')
  {
    LinkedAppend(s.writes, s.actionID, w);
    LeadAppend(s.writes, s.leadID, w);
    var log, next := s.writes, s'.writes;
    forall i | 0 <= i < |next| && next[i].Completed? ensures CompleteSound(next, i) {
      assert next[..i] == log[..i];
      assert i == |log| ==> log[..i] == log;
      assert i < |log| ==> next[i] == log[i];
    }
  }

  lemma StepSound(s: State, c: Call)
    requires Sound(s)
    ensures Sound(Step(s, c))
  {
    var s' := Step(s, c);
    if s'.writes != s.writes {
      LogSound(s, s'.writes[|s.writes|], s');
    }
  }

  /** Over every sequence of calls, answers and errors: a successful completion is
      the last write of the job, so there is at most one; what it links is what the
      writes before it say, and a status other than completed links nothing. */
  lemma {:induction false} ToolRunsAreSound(calls: seq<Call>)
    ensures Sound(Run(START, calls))
  {
    if calls == [] {
      assert Links([], 0, 0);
    } else {
      ToolRunsAreSound(calls[..|calls| - 1]);
      StepSound(Run(START, calls[..|calls| - 1]), calls[|calls| - 1]);
    }
  }

  // ----- the log is the calls -----

  predicate IsWriteOf(c: Call, w: Write) {
    match c
    case ProposeReply(_, a) => w == Replied(a)
    case RequestApproval(_, a) => w == AskedOwner(a)
    case SendSummary(_, a) => w == Summarised(a)
    case SaveLead(_, a) => w == SavedLead(a)
    case PauseAutopilot(a) => w == Paused(a)
    case Complete(status, a) => w.Completed? && w.status == status && w.answer == a
  }

  /** A call without the argument its tool requires. */
  predicate Unusable(c: Call) {
    match c
    case ProposeReply(text, _) => text == ""
    case RequestApproval(text, _) => text == ""
    case SendSummary(text, _) => text == ""
    case SaveLead(anyField, _) => !anyField
    case PauseAutopilot(_) => false
    case Complete(status, _) => status == ""
  }

  /** One call makes one write, of its own kind and with its answer, unless the job
      is complete or the call is unusable. */
  lemma StepWrites(s: State, c: Call)
    ensures var s' := Step(s, c);
            if s.completed || Unusable(c) then s' == s
            else |s'.writes| == |s.writes| + 1 && s'.writes[..|s.writes|] == s.writes && IsWriteOf(c, s'.writes[|s.writes|])
  {
  }

  /** Which call made each write: ks are their positions among the calls. */
  ghost predicate MadeBy(calls: seq<Call>, log: seq<Write>, ks: seq<nat>) {
    && |ks| == |log|
    && (forall i, j :: 0 <= i < j < |ks| ==> ks[i] < ks[j])
    && (forall i :: 0 <= i < |ks| ==> ks[i] < |calls| && IsWriteOf(calls[ks[i]], log[i]))
  }

  /** Call k made no write, for a reason. */
  ghost predicate Skipped(calls: seq<Call>, k: nat)
    requires k < |calls|
  {
    Unusable(calls[k]) || Run(START, calls[..k]).completed
  }

  lemma MadeByGrows(calls: seq<Call>, c: Call, log: seq<Write>, w: Write, ks: seq<nat>)
    requires MadeBy(calls, log, ks) && IsWriteOf(c, w)
    ensures MadeBy(calls + [c], log + [w], ks + [|calls|])
  {
  }

  /** Over every run the log is the usable calls in their order, one write each,
      until the job is complete; nothing else reaches the agent API. */
  lemma {:induction false} LogIsTheCalls(calls: seq<Call>) returns (ks: seq<nat>)
    ensures MadeBy(calls, Run(START, calls).writes, ks)
    ensures forall k :: 0 <= k < |calls| && k !in ks ==> Skipped(calls, k)
  {
    ks := [];
    if calls != [] {
      var front, c := calls[..|calls| - 1], calls[|calls| - 1];
      var s := Run(START, front);
      var ks0 := LogIsTheCalls(front);
      StepWrites(s, c);
      assert calls == front + [c];
      ks := ks0;
      if !(s.completed || Unusable(c)) {
        MadeByGrows(front, c, s.writes, Step(s, c).writes[|s.writes|], ks0);
        ks := ks0 + [|front|];
        assert Step(s, c).writes == s.writes + [Step(s, c).writes[|s.writes|]];
      }
      forall k | 0 <= k < |calls| && k !in ks ensures Skipped(calls, k) {
        if k < |front| {
          assert k !in ks0 && calls[..k] == front[..k];
          assert Skipped(front, k);
        }
      }
    }
  }

  /** The plain reading of the link rule, "the latest reply or approval wins", and
      exactly when it holds: its id is not zero, or no summary with an id follows. */
  lemma LatestReplyWins(calls: seq<Call>, k: nat)
    requires var log := Run(START, calls).writes;
             && k < |log| && IsResult(log[k]) && forall j :: k < j < |log| ==> !IsResult(log[j])
    ensures var s := Run(START, calls);
            s.actionID == s.writes[k].answer.value <==>
              (s.writes[k].answer.value != 0 || forall j :: k < j < |s.writes| ==> !IsSummary(s.writes[j]))
  {
    var s := Run(START, calls);
    ToolRunsAreSound(calls);
    var from: nat :| Links(s.writes, from, s.actionID);
    LastResultUnique(s.writes, from, k + 1);
  }

  /** An input on which it fails: a reply answered without an action id, and then a
      summary with one, which is linked instead. */
  lemma ZeroIdYieldsToSummary()
    ensures var calls := [ProposeReply("x", Ok(0)), SendSummary("y", Ok(7)), Complete("completed", Ok(0))];
            var log := Run(START, calls).writes;
            log == [Replied(Ok(0)), Summarised(Ok(7)), Completed("completed", JobResult(7, 0), Ok(0))]
  {
    var calls := [ProposeReply("x", Ok(0)), SendSummary("y", Ok(7)), Complete("completed", Ok(0))];
    assert calls[..2] == [ProposeReply("x", Ok(0)), SendSummary("y", Ok(7))];
    assert calls[..2][..1] == [ProposeReply("x", Ok(0))] && calls[..2][..1][..0] == [];
    assert Run(START, calls[..2][..1]) == State(false, 0, 0, [Replied(Ok(0))]);
    assert Run(START, calls[..2]) == State(false, 7, 0, [Replied(Ok(0)), Summarised(Ok(7))]);
  }

  /** A call made after completion reaches no API, whatever it is. */
  lemma {:induction false} NothingAfterCompletion(calls: seq<Call>, more: seq<Call>)
    requires Run(START, calls).completed
    ensures Run(START, calls + more) == Run(START, calls)
  {
    if more == [] {
      assert calls + more == calls;
    } else {
      var all := calls + more;
      assert all[..|all| - 1] == calls + more[..|more| - 1];
      NothingAfterCompletion(calls, more[..|more| - 1]);
    }
  }
}
