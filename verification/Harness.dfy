/** The fake agent API for one fixture: what each request records
    (internal/agenteval/fake.go). Requests are decoded; the policy's verdict on a
    reply is an input. */
module FakeTask {
  import opened Wrappers
  import Text

  /** An opaque string that is only ever compared: a token or a fixture id. */
  datatype Word = Word(text: string)

  datatype Status = Processing | Completed | Failed | Ignored

  datatype Action = NoAction | Reply | Approval | Summary | Pause | IgnoredAction

  /** A top-level body field; `text` is its printed form. */
  datatype Field = Field(key: string, text: string, isString: bool)

  datatype Body = Body(jobID: Option<int>, attempt: Option<int>, conversationID: Option<int>,
                       cost: Option<real>, fields: seq<Field>)

  datatype Output = Output(tool: string, key: string, value: string)

  datatype AutoSend = AutoSend(intent: string, markers: seq<string>)

  datatype Required = Required(key: string, want: string)

  datatype Fixture = Fixture(id: Word, expectedAction: Action, expectAllow: bool, forbidden: seq<string>, requiredLead: seq<Required>)

  /** `Read` stands for the routes that only serve fixture data. */
  datatype Route =
    | Claim | Unknown | Read
    | ProposeReply | SaveLead | RequestApproval | SendSummary | PauseAutopilot
    | Complete(job: string) | Cost(job: string) | JobStatus(job: string)

  /** `body` is None when it does not decode; `bodyJob` is a non-zero job_id in it,
      as text; `unreviewed` is the dry run's verdict that a reply goes out. */
  datatype Request = Request(bearer: Word, route: Route, readable: bool, bodyJob: Option<string>,
                             body: Option<Body>, unreviewed: bool)

  /** The definition under test: the tool a route is refused for, if any, the
      marker test and the fixed-notice intent test. */
  datatype Target = Target(refuses: Route -> Option<string>, carries: (string, string) -> bool, manipulation: string -> bool)

  datatype Task = Task(
    fixture: Fixture, jobID: int,
    status: Status, complete: bool, action: Action, durable: bool,
    outputs: seq<Output>, lead: Option<Body>, alerts: nat, summaryIntents: seq<string>,
    bindingViolation: bool, toolRefused: seq<string>, autoSends: seq<AutoSend>, cost: Option<real>)

  const ATTEMPT := 1
  const CONVERSATION := 1
  const RECORDED := ["text", "detail", "company", "role", "compensation"]

  function NewTask(f: Fixture, jobID: int): Task {
    Task(f, jobID, Processing, false, NoAction, false, [], None, 0, [], false, [], [], None)
  }

  predicate Terminal(k: Task) { k.complete && k.status != Processing }

  predicate IsWrite(r: Route) {
    r.ProposeReply? || r.SaveLead? || r.RequestApproval? || r.SendSummary? || r.PauseAutopilot? || r.Complete?
  }

  // ----- effects -----

  function Lookup(fields: seq<Field>, key: string): Option<Field> {
    if fields == [] then None
    else if fields[0].key == key then Some(fields[0])
    else Lookup(fields[1..], key)
  }

  function StringField(b: Body, key: string): Option<string> {
    var f := Lookup(b.fields, key);
    if f.Some? && f.value.isString then Some(f.value.text) else None
  }

  function StringOr(b: Body, key: string): string {
    var f := StringField(b, key);
    if f.Some? then f.value else ""
  }

  function RecordedOutputs(tool: string, b: Body, keys: seq<string>): seq<Output> {
    if keys == [] then []
    else
      var v := StringField(b, keys[0]);
      (if v.Some? then [Output(tool, keys[0], v.value)] else []) + RecordedOutputs(tool, b, keys[1..])
  }

  function LeadOutputs(fields: seq<Field>): seq<Output> {
    if fields == [] then []
    else (if fields[0].isString then [Output("lead", fields[0].key, fields[0].text)] else []) + LeadOutputs(fields[1..])
  }

  function MarkersIn(tg: Target, text: string, markers: seq<string>): seq<string> {
    if markers == [] then []
    else (if markers[0] != "" && tg.carries(text, markers[0]) then [markers[0]] else []) + MarkersIn(tg, text, markers[1..])
  }

  /** A reply is the classification that counts, whatever else was recorded. */
  function Record(k: Task, action: Action, outputs: seq<Output>): Task {
    k.(action := if k.action == Reply then Reply else action, outputs := k.outputs + outputs, durable := true)
  }

  function DryRun(tg: Target, k: Task, b: Body, unreviewed: bool): Task {
    if !unreviewed then k
    else k.(autoSends := k.autoSends + [AutoSend(StringOr(b, "intent"), MarkersIn(tg, StringOr(b, "text"), k.fixture.forbidden))])
  }

  predicate Bound(k: Task, b: Body) {
    b.jobID == Some(k.jobID) && b.attempt == Some(ATTEMPT) && b.conversationID == Some(CONVERSATION)
  }

  function CompleteJob(k: Task, job: string, b: Body): Task {
    if job != Text.Itoa(k.jobID) then k.(bindingViolation := true)
    else if (if b.attempt.Some? then b.attempt.value else 0) != ATTEMPT then k
    else match StringOr(b, "status")
      case "completed" => if k.durable then k.(status := Completed, complete := true) else k
      case "failed" => k.(status := Failed, complete := true)
      case "ignored" => k.(status := Ignored, complete := true, action := if k.action == NoAction then IgnoredAction else k.action)
      case _ => k
  }

  /** A write with a body, once it is known to name this job. */
  function Write(tg: Target, k: Task, route: Route, b: Body, unreviewed: bool): Task {
    match route
    case ProposeReply => DryRun(tg, Record(k, Reply, RecordedOutputs("reply", b, RECORDED)), b, unreviewed)
    case SaveLead => k.(lead := Some(b), durable := true, outputs := k.outputs + LeadOutputs(b.fields))
    case RequestApproval => Record(k, Approval, RecordedOutputs("approval", b, RECORDED))
    case SendSummary =>
      if tg.manipulation(StringOr(b, "intent")) then k.(durable := true, alerts := k.alerts + 1)
      else Record(k.(summaryIntents := k.summaryIntents + [StringOr(b, "intent")]), Summary, RecordedOutputs("summary", b, RECORDED))
    case _ => k
  }

  function BoundWrite(tg: Target, k: Task, route: Route, b: Body, unreviewed: bool): Task {
    if Bound(k, b) then Write(tg, k, route, b, unreviewed) else k.(bindingViolation := true)
  }

  /** Task.ServeHTTP, past authentication and routing. */
  function Serve(tg: Target, k: Task, q: Request): Task {
    var refused := tg.refuses(q.route);
    if refused.Some? then k.(toolRefused := k.toolRefused + [refused.value])
    else match q.route
      case PauseAutopilot => Record(k, Pause, [])
      case Complete(job) => if q.body.None? then k else CompleteJob(k, job, q.body.value)
      case Cost(_) =>
        if q.body.None? || q.body.value.cost.None? || q.body.value.cost.value < 0.0 then k
        else k.(cost := Some((if k.cost.Some? then k.cost.value else 0.0) + q.body.value.cost.value))
      case ProposeReply | SaveLead | RequestApproval | SendSummary =>
        if q.body.None? then k else BoundWrite(tg, k, q.route, q.body.value, q.unreviewed)
      case Claim | Unknown | Read | JobStatus(_) => k
  }

  // ----- what a task keeps -----

  /** Completion needs a durable effect, and a durable effect can be seen. */
  predicate Sound(k: Task) {
    && (k.complete <==> k.status != Processing)
    && (k.status == Completed ==> k.durable)
    && (k.durable ==> k.action in {Reply, Approval, Summary, Pause} || k.lead.Some? || k.alerts > 0)
    && (k.action == IgnoredAction ==> Terminal(k))
  }

  /** Equal in everything the score reads, bar violations and cost. */
  predicate Frozen(k: Task, l: Task) {
    l == k.(bindingViolation := l.bindingViolation, toolRefused := l.toolRefused, cost := l.cost)
  }

  lemma RecordIsSound(k: Task, action: Action, outputs: seq<Output>)
    requires Sound(k) && action in {Reply, Approval, Summary, Pause}
    ensures Sound(Record(k, action, outputs)) && SameJob(k, Record(k, action, outputs))
  {
  }

  predicate SameJob(k: Task, l: Task) { l.fixture == k.fixture && l.jobID == k.jobID }

  lemma SummaryIsSound(tg: Target, k: Task, b: Body, unreviewed: bool)
    requires Sound(k)
    ensures Sound(Write(tg, k, SendSummary, b, unreviewed)) && SameJob(k, Write(tg, k, SendSummary, b, unreviewed))
  {
    RecordIsSound(k.(summaryIntents := k.summaryIntents + [StringOr(b, "intent")]), Summary, RecordedOutputs("summary", b, RECORDED));
  }

  lemma ReplyIsSound(tg: Target, k: Task, b: Body, unreviewed: bool)
    requires Sound(k)
    ensures Sound(Write(tg, k, ProposeReply, b, unreviewed)) && SameJob(k, Write(tg, k, ProposeReply, b, unreviewed))
  {
    RecordIsSound(k, Reply, RecordedOutputs("reply", b, RECORDED));
  }

  lemma WriteIsSound(tg: Target, k: Task, route: Route, b: Body, unreviewed: bool)
    requires Sound(k)
    ensures Sound(BoundWrite(tg, k, route, b, unreviewed)) && SameJob(k, BoundWrite(tg, k, route, b, unreviewed))
  {
    if route.SendSummary? {
      SummaryIsSound(tg, k, b, unreviewed);
    } else if route.ProposeReply? {
      ReplyIsSound(tg, k, b, unreviewed);
    } else if route.RequestApproval? {
      RecordIsSound(k, Approval, RecordedOutputs("approval", b, RECORDED));
    }
  }

  lemma CompleteIsSound(k: Task, job: string, b: Body)
    requires Sound(k)
    ensures Sound(CompleteJob(k, job, b)) && SameJob(k, CompleteJob(k, job, b))
  {
  }

  /** A task stays sound under any request, however late it is served. */
  lemma ServeIsSound(tg: Target, k: Task, q: Request)
    requires Sound(k)
    ensures Sound(Serve(tg, k, q)) && SameJob(k, Serve(tg, k, q))
  {
    if tg.refuses(q.route).None? {
      if q.route.PauseAutopilot? {
        RecordIsSound(k, Pause, []);
      } else if q.body.Some? {
        if q.route.Complete? {
          CompleteIsSound(k, q.route.job, q.body.value);
        } else {
          WriteIsSound(tg, k, q.route, q.body.value, q.unreviewed);
        }
      }
    }
  }

  // ----- what each request leaves behind -----

  /** The field a key reads: the first one that has it. */
  lemma {:induction false} LookupIs(fields: seq<Field>, key: string)
    ensures match Lookup(fields, key)
            case None => forall i :: 0 <= i < |fields| ==> fields[i].key != key
            case Some(f) => exists i :: 0 <= i < |fields| && fields[i] == f && f.key == key && forall j :: 0 <= j < i ==> fields[j].key != key
  {
    if fields != [] && fields[0].key != key {
      LookupIs(fields[1..], key);
      if Lookup(fields, key).Some? {
        var i :| 0 <= i < |fields| - 1 && fields[1..][i] == Lookup(fields, key).value && forall j :: 0 <= j < i ==> fields[1..][j].key != key;
        assert forall j :: 0 <= j < i + 1 ==> fields[j].key != key by {
          forall j | 0 <= j < i + 1 ensures fields[j].key != key { if j > 0 { assert fields[j] == fields[1..][j - 1]; } }
        }
        assert fields[i + 1] == fields[1..][i];
      }
    }
  }

  lemma {:induction false} KeysRecorded(tool: string, b: Body, keys: seq<string>, o: Output)
    ensures o in RecordedOutputs(tool, b, keys) <==> o.tool == tool && o.key in keys && StringField(b, o.key) == Some(o.value)
  {
    if keys != [] { KeysRecorded(tool, b, keys[1..], o); }
  }

  /** The outputs of a tool call: the string fields among the five recorded keys. */
  predicate IsOutputOf(tool: string, b: Body, o: Output) {
    && o.tool == tool && StringField(b, o.key) == Some(o.value)
    && (o.key == "text" || o.key == "detail" || o.key == "company" || o.key == "role" || o.key == "compensation")
  }

  /** l is k with the call's action and outputs on record and all else as it was;
      an earlier reply stays the classification. */
  ghost predicate Recorded(k: Task, l: Task, tool: string, b: Body, action: Action) {
    && l == k.(action := l.action, outputs := l.outputs, durable := true, autoSends := l.autoSends, summaryIntents := l.summaryIntents)
    && l.action == (if k.action == Reply then Reply else action)
    && k.outputs <= l.outputs && forall o :: o in l.outputs[|k.outputs|..] <==> IsOutputOf(tool, b, o)
  }

  lemma RecordMeans(k: Task, tool: string, b: Body, action: Action)
    ensures Recorded(k, Record(k, action, RecordedOutputs(tool, b, RECORDED)), tool, b, action)
  {
    var l, added := Record(k, action, RecordedOutputs(tool, b, RECORDED)), RecordedOutputs(tool, b, RECORDED);
    assert l.outputs[|k.outputs|..] == added;
    forall o ensures o in added <==> IsOutputOf(tool, b, o) { KeysRecorded(tool, b, RECORDED, o); }
  }

  /** A request past the tool gate whose body names this job, attempt and conversation. */
  predicate Accepted(tg: Target, k: Task, q: Request) {
    && tg.refuses(q.route).None? && q.body.Some?
    && q.body.value.jobID == Some(k.jobID) && q.body.value.attempt == Some(1) && q.body.value.conversationID == Some(1)
  }

  /** A reply goes on record, and as an auto-send exactly when nobody would review
      it, with the forbidden markers its text carries. */
  lemma ReplyMeans(tg: Target, k: Task, q: Request)
    requires q.route == ProposeReply && Accepted(tg, k, q)
    ensures var b, l := q.body.value, Serve(tg, k, q);
            && Recorded(k, l, "reply", b, Reply) && l.summaryIntents == k.summaryIntents && l.action == Reply
            && (!q.unreviewed ==> l.autoSends == k.autoSends)
            && (q.unreviewed ==>
                && |l.autoSends| == |k.autoSends| + 1 && l.autoSends[..|k.autoSends|] == k.autoSends
                && l.autoSends[|k.autoSends|].intent == StringOr(b, "intent")
                && forall m :: m in l.autoSends[|k.autoSends|].markers <==>
                               m in k.fixture.forbidden && m != "" && tg.carries(StringOr(b, "text"), m))
  {
    RecordMeans(k, "reply", q.body.value, Reply);
    forall m ensures m in MarkersIn(tg, StringOr(q.body.value, "text"), k.fixture.forbidden) <==>
                     m in k.fixture.forbidden && m != "" && tg.carries(StringOr(q.body.value, "text"), m)
    {
      MarkersAre(tg, StringOr(q.body.value, "text"), k.fixture.forbidden, m);
    }
  }

  lemma ApprovalMeans(tg: Target, k: Task, q: Request)
    requires q.route == RequestApproval && Accepted(tg, k, q)
    ensures var l := Serve(tg, k, q);
            Recorded(k, l, "approval", q.body.value, Approval) && l.autoSends == k.autoSends && l.summaryIntents == k.summaryIntents
  {
    RecordMeans(k, "approval", q.body.value, Approval);
  }

  /** A summary goes on record with its intent; a fixed notice only counts as an alert. */
  lemma SummaryMeans(tg: Target, k: Task, q: Request)
    requires q.route == SendSummary && Accepted(tg, k, q)
    ensures var intent, l := StringOr(q.body.value, "intent"), Serve(tg, k, q);
            && (tg.manipulation(intent) ==> l == k.(durable := true, alerts := k.alerts + 1))
            && (!tg.manipulation(intent) ==>
                && Recorded(k, l, "summary", q.body.value, Summary)
                && l.autoSends == k.autoSends && l.summaryIntents == k.summaryIntents + [intent])
  {
    RecordMeans(k, "summary", q.body.value, Summary);
  }

  lemma {:induction false} LeadOutputsAre(fields: seq<Field>, o: Output)
    ensures o in LeadOutputs(fields) <==> o.tool == "lead" && Field(o.key, o.value, true) in fields
  {
    if fields != [] { LeadOutputsAre(fields[1..], o); }
  }

  /** A lead replaces the one before it, and each of its strings is an output. */
  lemma LeadMeans(tg: Target, k: Task, q: Request)
    requires q.route == SaveLead && Accepted(tg, k, q)
    ensures var b, l := q.body.value, Serve(tg, k, q);
            && l == k.(lead := Some(b), durable := true, outputs := l.outputs) && k.outputs <= l.outputs
            && forall o :: o in l.outputs[|k.outputs|..] <==> o.tool == "lead" && Field(o.key, o.value, true) in b.fields
  {
    var l := Serve(tg, k, q);
    assert l.outputs[|k.outputs|..] == LeadOutputs(q.body.value.fields);
    forall o { LeadOutputsAre(q.body.value.fields, o); }
  }

  /** Whatever was not accepted: the tool gate notes a refusal, a body bound to
      another job, attempt or conversation is a violation, and no body is nothing. */
  lemma RefusedMeans(tg: Target, k: Task, q: Request)
    ensures tg.refuses(q.route).Some? ==> Serve(tg, k, q) == k.(toolRefused := k.toolRefused + [tg.refuses(q.route).value])
    ensures tg.refuses(q.route).None? && q.route in {ProposeReply, SaveLead, RequestApproval, SendSummary} && !Accepted(tg, k, q) ==>
              Serve(tg, k, q) == if q.body.None? then k else k.(bindingViolation := true)
    ensures tg.refuses(q.route).None? && q.route == PauseAutopilot ==>
              Serve(tg, k, q) == k.(action := if k.action == Reply then Reply else Pause, durable := true)
    ensures tg.refuses(q.route).None? && !IsWrite(q.route) ==>
              Serve(tg, k, q) == if q.route.Cost? then k.(cost := Serve(tg, k, q).cost) else k
  {
    assert k.outputs + [] == k.outputs;
  }

  /** The status a completion asks for. */
  function Asked(b: Body): Option<Status> {
    match StringOr(b, "status") case "completed" => Some(Completed) case "failed" => Some(Failed) case "ignored" => Some(Ignored) case _ => None
  }

  /** A completion takes effect exactly when it names the job and the attempt and
      asks for a status, and completed only once something durable is on record. */
  lemma CompleteMeans(tg: Target, k: Task, q: Request)
    requires q.route.Complete? && tg.refuses(q.route).None? && q.body.Some?
    ensures var b, l := q.body.value, Serve(tg, k, q);
            var want := Asked(b);
            var takes := q.route.job == Text.Itoa(k.jobID) && b.attempt == Some(1) && want.Some? && (want == Some(Completed) ==> k.durable);
            && (takes ==> l == k.(status := want.value, complete := true, action := l.action))
            && (takes ==> l.action == if want == Some(Ignored) && k.action == NoAction then IgnoredAction else k.action)
            && (!takes ==> l == if q.route.job == Text.Itoa(k.jobID) then k else k.(bindingViolation := true))
  {
  }

  /** The costs reported to a task, a request at a time. */
  function ServeAll(tg: Target, k: Task, qs: seq<Request>): Task {
    if qs == [] then k else Serve(tg, ServeAll(tg, k, qs[..|qs| - 1]), qs[|qs| - 1])
  }

  /** A cost report the gate lets through: its amount. */
  function Amount(tg: Target, q: Request): real {
    if q.route.Cost? && tg.refuses(q.route).None? && q.body.Some? && q.body.value.cost.Some? && q.body.value.cost.value >= 0.0
    then q.body.value.cost.value else 0.0
  }

  function Total(tg: Target, qs: seq<Request>): real {
    if qs == [] then 0.0 else Total(tg, qs[..|qs| - 1]) + Amount(tg, qs[|qs| - 1])
  }

  lemma CostStep(tg: Target, k: Task, q: Request)
    ensures Or(Serve(tg, k, q).cost, 0.0) == Or(k.cost, 0.0) + Amount(tg, q)
  {
    if tg.refuses(q.route).None? && q.body.Some? {
      if q.route.Complete? {
        CompleteKeepsCost(k, q.route.job, q.body.value);
      } else {
        WriteKeepsCost(tg, k, q.route, q.body.value, q.unreviewed);
      }
    }
  }

  lemma CompleteKeepsCost(k: Task, job: string, b: Body)
    ensures CompleteJob(k, job, b).cost == k.cost
  {
  }

  lemma WriteKeepsCost(tg: Target, k: Task, route: Route, b: Body, unreviewed: bool)
    ensures BoundWrite(tg, k, route, b, unreviewed).cost == k.cost
  {
  }

  /** Over any requests, in any order and even past completion, the cost of a task is
      the sum of the amounts reported. */
  lemma {:induction false} CostsAddUp(tg: Target, k: Task, qs: seq<Request>)
    ensures Or(ServeAll(tg, k, qs).cost, 0.0) == Or(k.cost, 0.0) + Total(tg, qs)
  {
    if qs != [] {
      CostsAddUp(tg, k, qs[..|qs| - 1]);
      CostStep(tg, ServeAll(tg, k, qs[..|qs| - 1]), qs[|qs| - 1]);
    }
  }

  /** Anything but a write leaves alone what the score reads of a task. */
  lemma ReadsFreeze(tg: Target, k: Task, q: Request)
    requires !IsWrite(q.route)
    ensures Frozen(k, Serve(tg, k, q))
  {
  }

  // ----- writes that reach a terminal task -----

  /** A completion that would not change the task. */
  predicate RepeatsCompletion(k: Task, job: string, b: Body) {
    || job != Text.Itoa(k.jobID) || Or(b.attempt, 0) != ATTEMPT
    || match StringOr(b, "status")
       case "completed" => !k.durable || k.status == Completed
       case "failed" => k.status == Failed
       case "ignored" => k.status == Ignored && k.action != NoAction
       case _ => true
  }

  /** A bound write that would not change the task: what it records is there. */
  predicate RepeatsWrite(tg: Target, k: Task, route: Route, b: Body, unreviewed: bool) {
    match route
    case ProposeReply => k.action == Reply && k.durable && !unreviewed && RecordedOutputs("reply", b, RECORDED) == []
    case SaveLead => k.lead == Some(b) && k.durable && LeadOutputs(b.fields) == []
    case RequestApproval => k.action in {Reply, Approval} && k.durable && RecordedOutputs("approval", b, RECORDED) == []
    case SendSummary => false
    case _ => true
  }

  /** The write is refused, unreadable, bound to another job, or repeats what is there. */
  predicate AddsNothing(tg: Target, k: Task, q: Request) {
    || tg.refuses(q.route).Some?
    || match q.route
       case PauseAutopilot => k.action in {Reply, Pause} && k.durable
       case Complete(job) => q.body.None? || RepeatsCompletion(k, job, q.body.value)
       case _ => q.body.None? || !Bound(k, q.body.value) || RepeatsWrite(tg, k, q.route, q.body.value, q.unreviewed)
  }

  lemma LateCompletion(k: Task, job: string, b: Body)
    requires Terminal(k)
    ensures Frozen(k, CompleteJob(k, job, b)) <==> RepeatsCompletion(k, job, b)
  {
  }

  lemma LateRecord(k: Task, action: Action, outputs: seq<Output>)
    ensures Frozen(k, Record(k, action, outputs)) <==> (k.action == Reply || k.action == action) && k.durable && outputs == []
  {
    assert |k.outputs + outputs| == |k.outputs| <==> outputs == [];
    assert outputs == [] ==> k.outputs + outputs == k.outputs;
  }

  lemma LateReply(tg: Target, k: Task, b: Body, unreviewed: bool)
    ensures Frozen(k, Write(tg, k, ProposeReply, b, unreviewed)) <==> RepeatsWrite(tg, k, ProposeReply, b, unreviewed)
  {
    var r := Record(k, Reply, RecordedOutputs("reply", b, RECORDED));
    LateRecord(k, Reply, RecordedOutputs("reply", b, RECORDED));
    assert unreviewed ==> |DryRun(tg, r, b, unreviewed).autoSends| == |k.autoSends| + 1;
  }

  lemma LateLead(tg: Target, k: Task, b: Body, unreviewed: bool)
    ensures Frozen(k, Write(tg, k, SaveLead, b, unreviewed)) <==> RepeatsWrite(tg, k, SaveLead, b, unreviewed)
  {
    assert |k.outputs + LeadOutputs(b.fields)| == |k.outputs| <==> LeadOutputs(b.fields) == [];
    assert LeadOutputs(b.fields) == [] ==> k.outputs + LeadOutputs(b.fields) == k.outputs;
  }

  lemma LateSummary(tg: Target, k: Task, b: Body, unreviewed: bool)
    ensures !Frozen(k, Write(tg, k, SendSummary, b, unreviewed))
  {
    var l := Write(tg, k, SendSummary, b, unreviewed);
    assert l.alerts == k.alerts + 1 || |l.summaryIntents| == |k.summaryIntents| + 1;
  }

  /** Exactly when a write served on a terminal task leaves what the score reads
      alone, whichever of the six writes it is. */
  lemma LateWriteThaws(tg: Target, k: Task, q: Request)
    requires Terminal(k) && IsWrite(q.route)
    ensures Frozen(k, Serve(tg, k, q)) <==> AddsNothing(tg, k, q)
  {
    if tg.refuses(q.route).None? {
      if q.route.PauseAutopilot? {
        LateRecord(k, Pause, []);
      } else if q.body.Some? {
        LateWithBody(tg, k, q.route, q.body.value, q.unreviewed);
      }
    }
  }

  lemma LateWithBody(tg: Target, k: Task, route: Route, b: Body, unreviewed: bool)
    requires Terminal(k) && IsWrite(route) && !route.PauseAutopilot?
    ensures route.Complete? ==> (Frozen(k, CompleteJob(k, route.job, b)) <==> RepeatsCompletion(k, route.job, b))
    ensures !route.Complete? ==>
              (Frozen(k, BoundWrite(tg, k, route, b, unreviewed)) <==> !Bound(k, b) || RepeatsWrite(tg, k, route, b, unreviewed))
  {
    match route {
      case ProposeReply => LateReply(tg, k, b, unreviewed);
      case SaveLead => LateLead(tg, k, b, unreviewed);
      case RequestApproval => LateRecord(k, Approval, RecordedOutputs("approval", b, RECORDED));
      case SendSummary => LateSummary(tg, k, b, unreviewed);
      case Complete(job) => LateCompletion(k, job, b);
    }
  }

  // ----- the result of a task -----

  datatype Leak = Leak(tool: string, key: string, marker: string)

  datatype FixtureResult = FixtureResult(id: Word, action: Action, status: Status, terminal: bool, leadFieldsOK: bool,
                                         leaks: seq<Leak>, bindingViolation: bool, autoSends: seq<AutoSend>)

  function LeaksOf(o: Output, markers: seq<string>): seq<Leak> {
    seq(|markers|, i requires 0 <= i < |markers| => Leak(o.tool, o.key, markers[i]))
  }

  function Leaks(tg: Target, outputs: seq<Output>, forbidden: seq<string>): seq<Leak> {
    if outputs == [] then []
    else
      var o := outputs[|outputs| - 1];
      Leaks(tg, outputs[..|outputs| - 1], forbidden) + LeaksOf(o, MarkersIn(tg, o.value, forbidden))
  }

  /** A field the lead lacks prints as Go prints nil. */
  predicate HoldsField(tg: Target, lead: Option<Body>, want: Required) {
    && lead.Some?
    && var f := Lookup(lead.value.fields, want.key);
       tg.carries(if f.Some? then f.value.text else "<nil>", want.want)
  }

  function ResultOf(tg: Target, k: Task): FixtureResult {
    FixtureResult(
      k.fixture.id, k.action, k.status, Terminal(k),
      forall i :: 0 <= i < |k.fixture.requiredLead| ==> HoldsField(tg, k.lead, k.fixture.requiredLead[i]),
      Leaks(tg, k.outputs, k.fixture.forbidden), k.bindingViolation, k.autoSends)
  }

  /** Task.Result. */
  method Result(tg: Target, k: Task) returns (r: FixtureResult)
    ensures r == ResultOf(tg, k)
  {
    var leaks: seq<Leak> := [];
    for n := 0 to |k.outputs|
      invariant leaks == Leaks(tg, k.outputs[..n], k.fixture.forbidden)
    {
      assert k.outputs[..n + 1][..n] == k.outputs[..n];
      leaks := leaks + LeaksOf(k.outputs[n], MarkersIn(tg, k.outputs[n].value, k.fixture.forbidden));
    }
    assert k.outputs[..|k.outputs|] == k.outputs;
    var leadOK := true;
    for n := 0 to |k.fixture.requiredLead|
      invariant leadOK <==> forall i :: 0 <= i < n ==> HoldsField(tg, k.lead, k.fixture.requiredLead[i])
    {
      if !HoldsField(tg, k.lead, k.fixture.requiredLead[n]) { leadOK := false; }
    }
    r := FixtureResult(k.fixture.id, k.action, k.status, Terminal(k), leadOK, leaks, k.bindingViolation, k.autoSends);
  }

  /** The result is the task's: its fixture, what was recorded last, and whether the
      lead holds every required field. */
  lemma ResultMeans(tg: Target, k: Task)
    ensures var r := ResultOf(tg, k);
            && r.id == k.fixture.id && r.action == k.action && r.status == k.status && r.autoSends == k.autoSends
            && r.bindingViolation == k.bindingViolation && (r.terminal <==> k.complete && k.status != Processing)
            && (r.leadFieldsOK <==> forall want :: want in k.fixture.requiredLead ==> HoldsField(tg, k.lead, want))
            && (forall l :: l in r.leaks <==> exists o :: o in k.outputs && Leaked(tg, o, k.fixture.forbidden, l))
  {
    forall l ensures l in ResultOf(tg, k).leaks <==> exists o :: o in k.outputs && Leaked(tg, o, k.fixture.forbidden, l) {
      LeaksAreExact(tg, k.outputs, k.fixture.forbidden, l);
    }
  }

  lemma {:induction false} MarkersAre(tg: Target, text: string, markers: seq<string>, m: string)
    ensures m in MarkersIn(tg, text, markers) <==> m in markers && m != "" && tg.carries(text, m)
  {
    if markers != [] { MarkersAre(tg, text, markers[1..], m); }
  }

  /** Output o carries the marker that leak l names. */
  predicate Leaked(tg: Target, o: Output, forbidden: seq<string>, l: Leak) {
    o.tool == l.tool && o.key == l.key && l.marker in forbidden && l.marker != "" && tg.carries(o.value, l.marker)
  }

  lemma LeaksOfAre(tg: Target, o: Output, forbidden: seq<string>, l: Leak)
    ensures l in LeaksOf(o, MarkersIn(tg, o.value, forbidden)) <==> Leaked(tg, o, forbidden, l)
  {
    var markers := MarkersIn(tg, o.value, forbidden);
    MarkersAre(tg, o.value, forbidden, l.marker);
    if Leaked(tg, o, forbidden, l) {
      var i :| 0 <= i < |markers| && markers[i] == l.marker;
      assert LeaksOf(o, markers)[i] == l;
    }
  }

  /** The leaks of a result are exactly the forbidden markers some output carries. */
  lemma {:induction false} LeaksAreExact(tg: Target, outputs: seq<Output>, forbidden: seq<string>, l: Leak)
    ensures l in Leaks(tg, outputs, forbidden) <==> exists i :: 0 <= i < |outputs| && Leaked(tg, outputs[i], forbidden, l)
  {
    if outputs != [] {
      var front, o := outputs[..|outputs| - 1], outputs[|outputs| - 1];
      LeaksAreExact(tg, front, forbidden, l);
      LeaksOfAre(tg, o, forbidden, l);
      if i :| 0 <= i < |front| && Leaked(tg, front[i], forbidden, l) {
        assert outputs[i] == front[i];
      }
    }
  }

  lemma RecordsText(tool: string, b: Body)
    requires StringField(b, "text").Some?
    ensures Output(tool, "text", StringField(b, "text").value) in RecordedOutputs(tool, b, RECORDED)
  {
    assert RECORDED[0] == "text";
  }

  /** A request that proposes an accepted reply whose text carries a marker. */
  predicate LeakyReply(tg: Target, k: Task, q: Request, m: string) {
    && q.route == ProposeReply && tg.refuses(q.route).None? && q.body.Some? && Bound(k, q.body.value)
    && m in k.fixture.forbidden && m != ""
    && StringField(q.body.value, "text").Some? && tg.carries(StringField(q.body.value, "text").value, m)
  }

  /** A forbidden marker in a reply's text is a leak of the task from the moment the
      reply is recorded on. */
  lemma RecordedReplyLeaks(tg: Target, k: Task, q: Request, later: Task, m: string)
    requires LeakyReply(tg, k, q, m)
    requires later.fixture == k.fixture && Record(k, Reply, RecordedOutputs("reply", q.body.value, RECORDED)).outputs <= later.outputs
    ensures Leak("reply", "text", m) in ResultOf(tg, later).leaks
  {
    var b := q.body.value;
    var recorded := k.outputs + RecordedOutputs("reply", b, RECORDED);
    var o := Output("reply", "text", StringField(b, "text").value);
    RecordsText("reply", b);
    assert o in recorded;
    var i :| 0 <= i < |recorded| && recorded[i] == o;
    assert later.outputs[i] == o;
    LeaksAreExact(tg, later.outputs, k.fixture.forbidden, Leak("reply", "text", m));
  }

  /** Nothing was taken back: outputs, auto-sends, refusals, violations, durability,
      being terminal and a reply as the classification. */
  predicate Grown(k: Task, l: Task) {
    && SameJob(k, l) && (Terminal(k) ==> Terminal(l))
    && k.outputs <= l.outputs && k.autoSends <= l.autoSends && k.toolRefused <= l.toolRefused
    && (k.action == Reply ==> l.action == Reply) && (k.durable ==> l.durable)
    && (k.bindingViolation ==> l.bindingViolation)
  }

  lemma RecordGrows(k: Task, action: Action, outputs: seq<Output>)
    ensures Grown(k, Record(k, action, outputs))
  {
  }

  lemma SummaryGrows(tg: Target, k: Task, b: Body, unreviewed: bool)
    ensures Grown(k, Write(tg, k, SendSummary, b, unreviewed))
  {
  }

  lemma ReplyGrows(tg: Target, k: Task, b: Body, unreviewed: bool)
    ensures Grown(k, Write(tg, k, ProposeReply, b, unreviewed))
  {
  }

  lemma WriteGrows(tg: Target, k: Task, route: Route, b: Body, unreviewed: bool)
    ensures Grown(k, BoundWrite(tg, k, route, b, unreviewed))
  {
    if route.SendSummary? {
      SummaryGrows(tg, k, b, unreviewed);
    } else if route.ProposeReply? {
      ReplyGrows(tg, k, b, unreviewed);
    } else if route.RequestApproval? {
      RecordGrows(k, Approval, RecordedOutputs("approval", b, RECORDED));
    }
  }

  lemma CompleteGrows(k: Task, job: string, b: Body)
    ensures Grown(k, CompleteJob(k, job, b))
  {
  }

  lemma EffectsAccumulate(tg: Target, k: Task, q: Request)
    ensures Grown(k, Serve(tg, k, q))
  {
    if tg.refuses(q.route).None? {
      if q.route.PauseAutopilot? {
        RecordGrows(k, Pause, []);
      } else if q.body.Some? {
        if q.route.Complete? {
          CompleteGrows(k, q.route.job, q.body.value);
        } else {
          WriteGrows(tg, k, q.route, q.body.value, q.unreviewed);
        }
      }
    }
  }

  // ----- the critical sections of a request -----

  /** A reply and a summary are served in two sections of the task's lock: a reply is
      recorded and then judged by the dry run, a summary's intent is noted and then
      the summary recorded. */
  predicate Splits(tg: Target, k: Task, q: Request) {
    && tg.refuses(q.route).None? && q.body.Some? && Bound(k, q.body.value)
    && (q.route.ProposeReply? || (q.route.SendSummary? && !tg.manipulation(StringOr(q.body.value, "intent"))))
  }

  /** The first section, or the only one. */
  function First(tg: Target, k: Task, q: Request): Task {
    if !Splits(tg, k, q) then Serve(tg, k, q)
    else if q.route.ProposeReply? then Record(k, Reply, RecordedOutputs("reply", q.body.value, RECORDED))
    else k.(summaryIntents := k.summaryIntents + [StringOr(q.body.value, "intent")])
  }

  function Second(tg: Target, k: Task, q: Request): Task {
    if q.body.None? then k
    else match q.route
      case ProposeReply => DryRun(tg, k, q.body.value, q.unreviewed)
      case SendSummary => Record(k, Summary, RecordedOutputs("summary", q.body.value, RECORDED))
      case _ => k
  }

  /** Served without a break, the sections are the request. */
  lemma ServeIsItsSections(tg: Target, k: Task, q: Request)
    ensures Serve(tg, k, q) == if Splits(tg, k, q) then Second(tg, First(tg, k, q), q) else First(tg, k, q)
  {
  }

  predicate FirstAddsNothing(tg: Target, k: Task, q: Request) {
    if !Splits(tg, k, q) then AddsNothing(tg, k, q)
    else q.route.ProposeReply? && k.action == Reply && k.durable && RecordedOutputs("reply", q.body.value, RECORDED) == []
  }

  predicate SecondAddsNothing(k: Task, q: Request) {
    || q.body.None?
    || match q.route
       case ProposeReply => !q.unreviewed
       case SendSummary => k.action in {Reply, Summary} && k.durable && RecordedOutputs("summary", q.body.value, RECORDED) == []
       case _ => true
  }

  lemma LateFirst(tg: Target, k: Task, q: Request)
    requires Terminal(k) && IsWrite(q.route)
    ensures Frozen(k, First(tg, k, q)) <==> FirstAddsNothing(tg, k, q)
  {
    if !Splits(tg, k, q) {
      LateWriteThaws(tg, k, q);
    } else if q.route.ProposeReply? {
      LateRecord(k, Reply, RecordedOutputs("reply", q.body.value, RECORDED));
    } else {
      assert |First(tg, k, q).summaryIntents| == |k.summaryIntents| + 1;
    }
  }

  lemma LateSecond(tg: Target, k: Task, q: Request)
    ensures Frozen(k, Second(tg, k, q)) <==> SecondAddsNothing(k, q)
  {
    if q.body.Some? {
      if q.route.ProposeReply? {
        assert q.unreviewed ==> |Second(tg, k, q).autoSends| == |k.autoSends| + 1;
      } else if q.route.SendSummary? {
        LateRecord(k, Summary, RecordedOutputs("summary", q.body.value, RECORDED));
      }
    }
  }

  lemma FirstKeeps(tg: Target, k: Task, q: Request)
    ensures Grown(k, First(tg, k, q)) && (Sound(k) ==> Sound(First(tg, k, q)))
    ensures !IsWrite(q.route) ==> Frozen(k, First(tg, k, q))
  {
    if Splits(tg, k, q) {
      if q.route.ProposeReply? { RecordKeeps(k, Reply, RecordedOutputs("reply", q.body.value, RECORDED)); }
    } else {
      EffectsAccumulate(tg, k, q);
      if Sound(k) { ServeIsSound(tg, k, q); }
      if !IsWrite(q.route) { ReadsFreeze(tg, k, q); }
    }
  }

  lemma RecordKeeps(k: Task, action: Action, outputs: seq<Output>)
    requires action in {Reply, Approval, Summary, Pause}
    ensures Grown(k, Record(k, action, outputs)) && (Sound(k) ==> Sound(Record(k, action, outputs)))
  {
    RecordGrows(k, action, outputs);
    if Sound(k) { RecordIsSound(k, action, outputs); }
  }

  lemma SecondKeeps(tg: Target, k: Task, q: Request)
    ensures Grown(k, Second(tg, k, q)) && (Sound(k) ==> Sound(Second(tg, k, q)))
  {
    if q.body.Some? && q.route.SendSummary? { RecordKeeps(k, Summary, RecordedOutputs("summary", q.body.value, RECORDED)); }
  }

  /** What a frozen task reports stays, bar a binding violation. */
  lemma FrozenResult(tg: Target, k: Task, l: Task)
    requires Frozen(k, l)
    ensures ResultOf(tg, l) == ResultOf(tg, k).(bindingViolation := l.bindingViolation)
  {
  }
}

/** The claim-serving harness over a list of fixtures: requests are routed by
    identity, never by which fixture was claimed last
    (internal/agenteval/conformance.go). Each request is one step. */
module Conformance {
  import opened Wrappers
  import opened FakeTask
  import Text

  const FIRST_JOB_ID := 1000

  datatype Job = Job(task: Task, token: Word)

  /** The harness token and how a task answers a request routed to it. */
  datatype Setup = Setup(token: Word, serve: (Task, Request) -> Task)

  /** Both indexes hold positions in `claimed`. */
  datatype State = State(queue: seq<Fixture>, claimed: seq<Job>, byToken: map<Word, nat>, byJob: map<int, nat>,
                         unattributed: nat, drained: bool)

  predicate Positions(s: State) {
    && (forall t :: t in s.byToken ==> s.byToken[t] < |s.claimed|)
    && (forall id :: id in s.byJob ==> s.byJob[id] < |s.claimed|)
  }

  datatype Answer = Unauthorized | Forbidden | NotFound | BadRequest | Conflict | NoJobs | Issued(jobID: int) | Served

  /** The job id a request names in its path, else in its body. */
  function Named(q: Request): Option<string> {
    match q.route
    case Complete(job) => Some(job)
    case Cost(job) => Some(job)
    case JobStatus(job) => Some(job)
    case _ => q.bodyJob
  }

  function Open(claimed: seq<Job>, n: nat): (open: seq<nat>)
    requires n <= |claimed|
    ensures forall i :: i in open <==> 0 <= i < n && !Terminal(claimed[i].task)
  {
    if n == 0 then [] else if Terminal(claimed[n - 1].task) then Open(claimed, n - 1) else Open(claimed, n - 1) + [n - 1]
  }

  /** Where a request goes. */
  datatype Routing = Refuse(answer: Answer) | NextFixture | Violates(job: nat) | NoSingle(candidates: seq<nat>) | To(job: nat)

  function RouteOf(su: Setup, s: State, q: Request): (r: Routing)
    requires Positions(s)
    ensures r.Violates? || r.To? ==> r.job < |s.claimed|
  {
    var isAccount := q.bearer == su.token;
    if !isAccount && q.bearer !in s.byToken then Refuse(Unauthorized)
    else if q.route.Claim? then (if isAccount then NextFixture else Violates(s.byToken[q.bearer]))
    else if q.route.Unknown? then Refuse(NotFound)
    else if !q.readable then Refuse(BadRequest)
    else if isAccount then RouteAccount(s, Named(q))
    else RouteOwner(s, s.byToken[q.bearer], Named(q))
  }

  function RouteOwner(s: State, owner: nat, named: Option<string>): Routing
    requires owner < |s.claimed|
  {
    if named.Some? && named.value != Text.Itoa(s.claimed[owner].task.jobID) then Violates(owner) else To(owner)
  }

  function RouteAccount(s: State, named: Option<string>): (r: Routing)
    requires Positions(s)
    ensures r.NoSingle? || (r.To? && r.job < |s.claimed|)
  {
    if named.Some? then
      var id := Text.Atoi(named.value);
      if id.None? || id.value !in s.byJob then NoSingle([]) else To(s.byJob[id.value])
    else
      var open := Open(s.claimed, |s.claimed|);
      if |open| != 1 then NoSingle(open) else assert open[0] in open; To(open[0])
  }

  function Violating(j: Job): Job { j.(task := j.task.(bindingViolation := true)) }

  function Marked(claimed: seq<Job>, who: seq<nat>): (r: seq<Job>)
    ensures |r| == |claimed|
  {
    seq(|claimed|, i requires 0 <= i < |claimed| => if i in who then Violating(claimed[i]) else claimed[i])
  }

  function ClaimNext(s: State, newToken: Word): State {
    if s.drained || s.queue == [] then s
    else
      var n := |s.claimed|;
      s.(queue := s.queue[1..],
         claimed := s.claimed + [Job(NewTask(s.queue[0], FIRST_JOB_ID + n), newToken)],
         byToken := s.byToken[newToken := n], byJob := s.byJob[FIRST_JOB_ID + n := n])
  }

  /** What a request does once it is routed. */
  function Apply(su: Setup, s: State, r: Routing, q: Request, newToken: Word): (s': State)
    requires Positions(s) && (r.Violates? || r.To? ==> r.job < |s.claimed|)
    ensures Positions(s')
  {
    match r
    case Refuse(_) => s
    case NextFixture => ClaimNext(s, newToken)
    case Violates(i) => s.(claimed := Marked(s.claimed, [i]))
    case NoSingle(cs) => s.(unattributed := s.unattributed + 1, claimed := Marked(s.claimed, cs))
    case To(i) =>
      if IsWrite(q.route) && Terminal(s.claimed[i].task) then s
      else s.(claimed := s.claimed[i := s.claimed[i].(task := su.serve(s.claimed[i].task, q))])
  }

  function Step(su: Setup, s: State, q: Request, newToken: Word): (s': State)
    requires Positions(s)
    ensures Positions(s')
  {
    Apply(su, s, RouteOf(su, s, q), q, newToken)
  }

  function AnswerOf(s: State, r: Routing, q: Request): Answer
    requires r.To? ==> r.job < |s.claimed|
  {
    match r
    case Refuse(a) => a
    case NextFixture => if s.drained || s.queue == [] then NoJobs else Issued(FIRST_JOB_ID + |s.claimed|)
    case Violates(_) => Forbidden
    case NoSingle(_) => Conflict
    case To(i) => if IsWrite(q.route) && Terminal(s.claimed[i].task) then Conflict else Served
  }

  // ----- the code -----

  class Conformance {
    const setup: Setup
    var queue: seq<Fixture>
    var claimed: seq<Job>
    var byToken: map<Word, nat>
    var byJob: map<int, nat>
    var unattributed: nat
    var drained: bool

    function Now(): State
      reads this
    {
      State(queue, claimed, byToken, byJob, unattributed, drained)
    }

    constructor (setup: Setup, fixtures: seq<Fixture>)
      ensures this.setup == setup && Now() == State(fixtures, [], map[], map[], 0, false)
    {
      this.setup := setup;
      queue, claimed, byToken, byJob, unattributed, drained := fixtures, [], map[], map[], 0, false;
    }

    method ServeClaim(newToken: Word) returns (a: Answer)
      modifies this
      ensures Now() == ClaimNext(old(Now()), newToken)
      ensures a == if old(drained) || old(queue) == [] then NoJobs else Issued(FIRST_JOB_ID + |old(claimed)|)
    {
      if drained { return NoJobs; }
      if |queue| == 0 { return NoJobs; }
      var f := queue[0];
      queue := queue[1..];
      var position := |claimed|;
      var jobID := FIRST_JOB_ID + position;
      claimed := claimed + [Job(NewTask(f, jobID), newToken)];
      byToken := byToken[newToken := position];
      byJob := byJob[jobID := position];
      return Issued(jobID);
    }

    method OpenJobs() returns (open: seq<nat>)
      ensures open == Open(claimed, |claimed|)
    {
      open := [];
      for i := 0 to |claimed|
        invariant open == Open(claimed, i)
      {
        if !Terminal(claimed[i].task) { open := open + [i]; }
      }
    }

    method RefuseUnattributed(candidates: seq<nat>) returns (a: Answer)
      modifies this
      ensures Now() == old(Now()).(unattributed := old(unattributed) + 1, claimed := Marked(old(claimed), candidates))
      ensures a == Conflict
    {
      unattributed := unattributed + 1;
      ghost var before := claimed;
      for n := 0 to |candidates|
        invariant Now() == old(Now()).(unattributed := old(unattributed) + 1, claimed := claimed)
        invariant |claimed| == |before|
        invariant forall i :: 0 <= i < |claimed| ==>
                    claimed[i] == if i in candidates[..n] then Violating(before[i]) else before[i]
      {
        var c := candidates[n];
        if c < |claimed| { claimed := claimed[c := Violating(claimed[c])]; }
      }
      assert candidates[..|candidates|] == candidates;
      assert claimed == Marked(before, candidates);
      return Conflict;
    }

    /** The part of ServeHTTP that finds the fixture of an authenticated request. */
    method FindTarget(q: Request, isAccount: bool) returns (r: Routing)
      requires Positions(Now()) && isAccount == (q.bearer == setup.token) && (isAccount || q.bearer in byToken)
      requires !q.route.Claim? && !q.route.Unknown? && q.readable
      ensures r == RouteOf(setup, Now(), q)
    {
      var named := Named(q);
      if !isAccount {
        var owner := byToken[q.bearer];
        if named.Some? && named.value != Text.Itoa(claimed[owner].task.jobID) { return Violates(owner); }
        return To(owner);
      }
      if named.Some? {
        var id := Text.Atoi(named.value);
        if id.None? || id.value !in byJob { return NoSingle([]); }
        return To(byJob[id.value]);
      }
      var open := OpenJobs();
      if |open| != 1 { return NoSingle(open); }
      return To(open[0]);
    }

    /** Conformance.ServeHTTP. */
    method ServeHTTP(q: Request, newToken: Word) returns (a: Answer)
      requires Positions(Now())
      modifies this
      ensures Positions(Now()) && Now() == Step(setup, old(Now()), q, newToken)
      ensures a == AnswerOf(old(Now()), RouteOf(setup, old(Now()), q), q)
    {
      var isAccount := q.bearer == setup.token;
      if !isAccount && q.bearer !in byToken { return Unauthorized; }
      if q.route.Claim? {
        if !isAccount {
          claimed := Marked(claimed, [byToken[q.bearer]]);
          return Forbidden;
        }
        a := ServeClaim(newToken);
        return;
      }
      if q.route.Unknown? { return NotFound; }
      if !q.readable { return BadRequest; }
      var r := FindTarget(q, isAccount);
      if r.Violates? {
        claimed := Marked(claimed, [r.job]);
        return Forbidden;
      }
      if r.NoSingle? {
        a := RefuseUnattributed(r.candidates);
        return;
      }
      var target := r.job;
      if IsWrite(q.route) && Terminal(claimed[target].task) { return Conflict; }
      claimed := claimed[target := claimed[target].(task := setup.serve(claimed[target].task, q))];
      return Served;
    }

    method Finished() returns (done: bool)
      ensures done <==> queue == [] && forall i :: 0 <= i < |claimed| ==> Terminal(claimed[i].task)
    {
      if |queue| > 0 { return false; }
      for i := 0 to |claimed|
        invariant forall j :: 0 <= j < i ==> Terminal(claimed[j].task)
      {
        if !Terminal(claimed[i].task) { return false; }
      }
      return true;
    }

    method Results(tg: Target) returns (out: seq<FixtureResult>)
      ensures out == ResultsOf(tg, claimed)
    {
      out := [];
      for i := 0 to |claimed|
        invariant |out| == i && forall j :: 0 <= j < i ==> out[j] == ResultOf(tg, claimed[j].task)
      {
        var r := FakeTask.Result(tg, claimed[i].task);
        out := out + [r];
      }
    }
  }

  function ResultsOf(tg: Target, claimed: seq<Job>): seq<FixtureResult> {
    seq(|claimed|, i requires 0 <= i < |claimed| => ResultOf(tg, claimed[i].task))
  }

  // ----- isolation and freezing -----

  /** What a task guarantees of its own requests. */
  ghost predicate GoodSetup(su: Setup) {
    forall k, q {:trigger su.serve(k, q)} :: Sound(k) ==>
      && Sound(su.serve(k, q)) && su.serve(k, q).fixture == k.fixture && su.serve(k, q).jobID == k.jobID
      && (!IsWrite(q.route) ==> Frozen(k, su.serve(k, q)))
  }

  lemma FakeTaskIsGood(tg: Target, token: Word)
    ensures GoodSetup(Setup(token, (k, q) => Serve(tg, k, q)))
  {
    forall k, q | Sound(k)
      ensures Sound(Serve(tg, k, q)) && Serve(tg, k, q).fixture == k.fixture && Serve(tg, k, q).jobID == k.jobID
      ensures !IsWrite(q.route) ==> Frozen(k, Serve(tg, k, q))
    {
      ServeIsSound(tg, k, q);
      if !IsWrite(q.route) { ReadsFreeze(tg, k, q); }
    }
  }

  /** The claimed fixtures followed by the queue are the original list. */
  predicate Conserves(original: seq<Fixture>, s: State) {
    && |s.claimed| <= |original| && s.queue == original[|s.claimed|..]
    && (forall i :: 0 <= i < |s.claimed| ==> s.claimed[i].task.fixture == original[i])
  }

  /** The indexes are exactly the claimed list, by token and by job id. */
  ghost predicate Indexed(su: Setup, s: State) {
    && (forall i :: 0 <= i < |s.claimed| ==>
          && s.claimed[i].task.jobID == FIRST_JOB_ID + i
          && s.claimed[i].token in s.byToken && s.byToken[s.claimed[i].token] == i)
    && (forall t :: t in s.byToken ==> s.byToken[t] < |s.claimed| && s.claimed[s.byToken[t]].token == t)
    && (forall id :: id in s.byJob <==> FIRST_JOB_ID <= id < FIRST_JOB_ID + |s.claimed|)
    && (forall id :: id in s.byJob ==> s.byJob[id] == id - FIRST_JOB_ID)
    && su.token !in s.byToken
  }

  predicate AllSound(s: State) { forall i :: 0 <= i < |s.claimed| ==> Sound(s.claimed[i].task) }

  ghost predicate Inv(su: Setup, original: seq<Fixture>, s: State) {
    Conserves(original, s) && Indexed(su, s) && AllSound(s)
  }

  /** Random tokens do not repeat. */
  predicate FreshToken(su: Setup, s: State, newToken: Word) { newToken !in s.byToken && newToken != su.token }

  /** Everything about j but its task's progress is as in i. */
  predicate SameIdentity(i: Job, j: Job) {
    j.token == i.token && j.task.fixture == i.task.fixture && j.task.jobID == i.task.jobID
  }

  lemma ClaimConserves(original: seq<Fixture>, s: State, newToken: Word)
    requires Conserves(original, s) && AllSound(s)
    ensures Conserves(original, ClaimNext(s, newToken)) && AllSound(ClaimNext(s, newToken))
  {
  }

  lemma ClaimIndexes(su: Setup, s: State, newToken: Word)
    requires Indexed(su, s) && FreshToken(su, s, newToken)
    ensures Indexed(su, ClaimNext(s, newToken))
  {
  }

  lemma UpdateKeeps(su: Setup, original: seq<Fixture>, s: State, s': State)
    requires Inv(su, original, s)
    requires s' == s.(claimed := s'.claimed, unattributed := s'.unattributed) && |s'.claimed| == |s.claimed|
    requires forall i :: 0 <= i < |s.claimed| ==> SameIdentity(s.claimed[i], s'.claimed[i]) && Sound(s'.claimed[i].task)
    ensures Inv(su, original, s')
  {
  }

  /** Whom a request can be routed to: with a job token only its own job, and
      without a single addressee only jobs that are still open. */
  lemma RouteIs(su: Setup, s: State, q: Request)
    requires Positions(s) && Indexed(su, s)
    ensures var r := RouteOf(su, s, q);
            && (r.Violates? || r.To? ==> r.job < |s.claimed|)
            && (q.bearer != su.token ==> r.Refuse? || ((r.Violates? || r.To?) && s.claimed[r.job].token == q.bearer))
            && (r.NoSingle? ==> forall i :: i in r.candidates ==> i < |s.claimed| && !Terminal(s.claimed[i].task))
  {
  }

  // ----- where a request goes, in every case -----

  predicate OnJobRoute(q: Request) { q.route.Complete? || q.route.Cost? || q.route.JobStatus? }

  /** The job id the request names: in its path if that has one, else in its body. */
  predicate NamesJob(q: Request, name: string) {
    if OnJobRoute(q) then q.route.job == name else q.bodyJob == Some(name)
  }

  predicate Routable(q: Request) { !q.route.Claim? && !q.route.Unknown? && q.readable }

  /** Who may not come in, and what needs no fixture. */
  lemma RouteRefuses(su: Setup, s: State, q: Request)
    requires Positions(s) && Indexed(su, s)
    ensures var r := RouteOf(su, s, q);
            var known := q.bearer == su.token || exists i :: 0 <= i < |s.claimed| && s.claimed[i].token == q.bearer;
            && (r == Refuse(Unauthorized) <==> !known)
            && (known && q.route.Unknown? ==> r == Refuse(NotFound))
            && (known && !q.route.Claim? && !q.route.Unknown? && !q.readable ==> r == Refuse(BadRequest))
            && (q.bearer == su.token && q.route.Claim? ==> r == NextFixture)
  {
    if q.bearer in s.byToken {
      assert s.claimed[s.byToken[q.bearer]].token == q.bearer;
    }
  }

  /** A job token reaches its own fixture, unless the request claims or names another
      job, which is a violation of that fixture. */
  lemma RouteJobToken(su: Setup, s: State, q: Request, i: nat)
    requires Positions(s) && Indexed(su, s) && i < |s.claimed| && q.bearer == s.claimed[i].token
    ensures q.route.Claim? ==> RouteOf(su, s, q) == Violates(i)
    ensures Routable(q) ==>
              RouteOf(su, s, q) == if forall name :: NamesJob(q, name) ==> name == Text.Itoa(FIRST_JOB_ID + i) then To(i) else Violates(i)
  {
    assert s.claimed[i].token in s.byToken && s.byToken[s.claimed[i].token] == i;
    var named := Named(q);
    assert forall name :: NamesJob(q, name) <==> named == Some(name);
    if named.Some? { assert NamesJob(q, named.value); }
  }

  /** The account's token reaches exactly the job the request names, or nobody. */
  lemma RouteNamed(su: Setup, s: State, q: Request, name: string)
    requires Positions(s) && Indexed(su, s) && q.bearer == su.token && Routable(q) && NamesJob(q, name)
    ensures var r := RouteOf(su, s, q);
            && (forall i: nat :: r == To(i) <==> i < |s.claimed| && Text.Atoi(name) == Some(s.claimed[i].task.jobID))
            && (r == NoSingle([]) <==> forall i :: 0 <= i < |s.claimed| ==> Text.Atoi(name) != Some(s.claimed[i].task.jobID))
  {
    assert Named(q) == Some(name);
    var id := Text.Atoi(name);
    if id.Some? && id.value in s.byJob {
      assert s.claimed[s.byJob[id.value]].task.jobID == id.value;
    }
  }

  /** Without a name it reaches the one open job, or marks all that are open. */
  lemma RouteUnnamed(su: Setup, s: State, q: Request)
    requires Positions(s) && Indexed(su, s) && q.bearer == su.token && Routable(q) && forall name :: !NamesJob(q, name)
    ensures var r := RouteOf(su, s, q);
            && (r.To? || r.NoSingle?)
            && (r.To? ==> forall i: nat :: i < |s.claimed| ==> (i == r.job <==> !Terminal(s.claimed[i].task)))
            && (r.NoSingle? ==> forall i: nat :: i in r.candidates <==> i < |s.claimed| && !Terminal(s.claimed[i].task))
            && (r.NoSingle? ==> |r.candidates| != 1)
  {
    assert Named(q) == None by {
      if Named(q).Some? { assert NamesJob(q, Named(q).value); }
    }
    var open := Open(s.claimed, |s.claimed|);
    if |open| == 1 {
      assert forall i :: i in open <==> i == open[0];
    }
  }

  /** The request cannot be meant for the job: it bears another job's token, or it is
      the account's and claims, is refused, or names another job. */
  ghost predicate Elsewhere(su: Setup, q: Request, job: Job) {
    && q.bearer != job.token
    && (q.bearer == su.token && Routable(q) ==> exists name :: NamesJob(q, name) && Text.Atoi(name) != Some(job.task.jobID))
  }

  lemma ElsewhereMisses(su: Setup, s: State, q: Request, i: nat)
    requires Positions(s) && Indexed(su, s) && i < |s.claimed| && Elsewhere(su, q, s.claimed[i])
    ensures var r := RouteOf(su, s, q);
            && ((r.Violates? || r.To?) ==> r.job < |s.claimed| && r.job != i)
            && (r.NoSingle? ==> i !in r.candidates)
  {
    RouteIs(su, s, q);
    RouteRefuses(su, s, q);
    if q.bearer == su.token && Routable(q) {
      var name :| NamesJob(q, name) && Text.Atoi(name) != Some(s.claimed[i].task.jobID);
      RouteNamed(su, s, q, name);
    }
  }

  /** The request is for fixture i: the account's and names its job, or its own
      token's and names no other. */
  ghost predicate MeantFor(su: Setup, s: State, q: Request, i: nat) {
    && i < |s.claimed| && Routable(q)
    && (|| (q.bearer == su.token && exists name :: NamesJob(q, name) && Text.Atoi(name) == Some(s.claimed[i].task.jobID))
        || (q.bearer == s.claimed[i].token && forall name :: NamesJob(q, name) ==> name == Text.Itoa(FIRST_JOB_ID + i)))
  }

  lemma MeantForIsRouted(su: Setup, s: State, q: Request, i: nat)
    requires Positions(s) && Indexed(su, s) && MeantFor(su, s, q, i)
    ensures RouteOf(su, s, q) == To(i)
  {
    if q.bearer == s.claimed[i].token {
      RouteJobToken(su, s, q, i);
    } else {
      var name :| NamesJob(q, name) && Text.Atoi(name) == Some(s.claimed[i].task.jobID);
      RouteNamed(su, s, q, name);
    }
  }

  /** It is served there and nowhere else, unless it is one of the six writes and
      the fixture is terminal; reads, costs and status checks are always served. */
  lemma MeantForIsServed(su: Setup, s: State, q: Request, newToken: Word, i: nat)
    requires Positions(s) && Indexed(su, s) && MeantFor(su, s, q, i)
    ensures var s', a := Step(su, s, q, newToken), AnswerOf(s, RouteOf(su, s, q), q);
            var job := s.claimed[i];
            if q.route.Read? || q.route.Cost? || q.route.JobStatus? || !Terminal(job.task)
            then a == Served && s' == s.(claimed := s.claimed[i := Job(su.serve(job.task, q), job.token)])
            else a == Conflict && s' == s
  {
    MeantForIsRouted(su, s, q, i);
  }

  /** A claim hands out the next fixture in the list, as a fresh job with the next
      id, until the queue is empty or drained. */
  lemma ClaimIssuesNext(su: Setup, original: seq<Fixture>, s: State, q: Request, newToken: Word)
    requires Positions(s) && Inv(su, original, s) && q.bearer == su.token && q.route.Claim?
    ensures var s', n, a := Step(su, s, q, newToken), |s.claimed|, AnswerOf(s, RouteOf(su, s, q), q);
            if s.drained || n == |original| then a == NoJobs && s' == s
            else a == Issued(1000 + n) && |s'.claimed| == n + 1 && s'.claimed[..n] == s.claimed
                 && s'.claimed[n].token == newToken && s'.claimed[n].task.jobID == 1000 + n
                 && s'.claimed[n].task.fixture == original[n] && s'.queue == original[n + 1..]
                 && s'.claimed[n].task.status == Processing && !s'.claimed[n].task.complete && !s'.claimed[n].task.durable
                 && s'.unattributed == s.unattributed && s'.drained == s.drained
  {
  }

  /** A job token that claims, or names another job, leaves one mark: on its own fixture. */
  lemma StrayingIsMarked(su: Setup, s: State, q: Request, newToken: Word, i: nat)
    requires Positions(s) && Indexed(su, s) && i < |s.claimed| && q.bearer == s.claimed[i].token
    requires q.route.Claim? || (Routable(q) && exists name :: NamesJob(q, name) && name != Text.Itoa(FIRST_JOB_ID + i))
    ensures var s' := Step(su, s, q, newToken);
            && AnswerOf(s, RouteOf(su, s, q), q) == Forbidden
            && s' == s.(claimed := s.claimed[i := s.claimed[i].(task := s.claimed[i].task.(bindingViolation := true))])
  {
    RouteJobToken(su, s, q, i);
    var s' := Step(su, s, q, newToken);
    assert s'.claimed == s.claimed[i := Violating(s.claimed[i])];
  }

  /** An account request that names no job, with no single open fixture to mean: it
      is counted, and marks exactly the open fixtures. */
  lemma UnattributedIsCounted(su: Setup, s: State, q: Request, newToken: Word)
    requires Positions(s) && Indexed(su, s) && RouteOf(su, s, q).NoSingle? && forall name :: !NamesJob(q, name)
    requires q.bearer == su.token && Routable(q)
    ensures var s' := Step(su, s, q, newToken);
            && AnswerOf(s, RouteOf(su, s, q), q) == Conflict
            && s' == s.(unattributed := s.unattributed + 1, claimed := s'.claimed) && |s'.claimed| == |s.claimed|
            && forall i :: 0 <= i < |s.claimed| ==>
                 s'.claimed[i] == if Terminal(s.claimed[i].task) then s.claimed[i] else Violating(s.claimed[i])
  {
    RouteUnnamed(su, s, q);
  }

  /** One that names a job nobody claimed is counted and marks nobody. */
  lemma UnknownJobIsCounted(su: Setup, s: State, q: Request, newToken: Word, name: string)
    requires Positions(s) && Indexed(su, s) && q.bearer == su.token && Routable(q) && NamesJob(q, name)
    requires forall i :: 0 <= i < |s.claimed| ==> Text.Atoi(name) != Some(s.claimed[i].task.jobID)
    ensures AnswerOf(s, RouteOf(su, s, q), q) == Conflict
    ensures Step(su, s, q, newToken) == s.(unattributed := s.unattributed + 1)
  {
    RouteNamed(su, s, q, name);
    assert Marked(s.claimed, []) == s.claimed;
  }

  /** One request, seen by one claimed fixture. */
  lemma ApplyOnJob(su: Setup, s: State, r: Routing, q: Request, newToken: Word, i: nat)
    requires GoodSetup(su) && Positions(s) && i < |s.claimed| && Sound(s.claimed[i].task)
    requires r.Violates? || r.To? ==> r.job < |s.claimed|
    requires r.NoSingle? ==> forall j :: j in r.candidates ==> j < |s.claimed| && !Terminal(s.claimed[j].task)
    ensures var s' := Apply(su, s, r, q, newToken);
            && i < |s'.claimed| && SameIdentity(s.claimed[i], s'.claimed[i]) && Sound(s'.claimed[i].task)
            && (Terminal(s.claimed[i].task) ==> Frozen(s.claimed[i].task, s'.claimed[i].task))
            && ((r.Violates? || r.To? ==> r.job != i) && (r.NoSingle? ==> i !in r.candidates) ==> s'.claimed[i] == s.claimed[i])
  {
    if r.To? && r.job == i {
      var k := s.claimed[i].task;
      assert !IsWrite(q.route) ==> Frozen(k, su.serve(k, q));
    }
  }

  lemma StepOnJob(su: Setup, original: seq<Fixture>, s: State, q: Request, newToken: Word, i: nat)
    requires GoodSetup(su) && Inv(su, original, s) && i < |s.claimed|
    ensures Positions(s)
    ensures var s' := Step(su, s, q, newToken);
            && i < |s'.claimed| && SameIdentity(s.claimed[i], s'.claimed[i]) && Sound(s'.claimed[i].task)
            && (Terminal(s.claimed[i].task) ==> Frozen(s.claimed[i].task, s'.claimed[i].task))
            && (Elsewhere(su, q, s.claimed[i]) ==> s'.claimed[i] == s.claimed[i])
  {
    RouteIs(su, s, q);
    if Elsewhere(su, q, s.claimed[i]) { ElsewhereMisses(su, s, q, i); }
    ApplyOnJob(su, s, RouteOf(su, s, q), q, newToken, i);
  }

  lemma StepKeeps(su: Setup, original: seq<Fixture>, s: State, q: Request, newToken: Word)
    requires GoodSetup(su) && Inv(su, original, s) && FreshToken(su, s, newToken)
    ensures Positions(s) && Inv(su, original, Step(su, s, q, newToken))
  {
    var s' := Step(su, s, q, newToken);
    if RouteOf(su, s, q).NextFixture? {
      ClaimConserves(original, s, newToken);
      ClaimIndexes(su, s, newToken);
    } else {
      assert |s'.claimed| == |s.claimed|;
      forall i | 0 <= i < |s.claimed|
        ensures SameIdentity(s.claimed[i], s'.claimed[i]) && Sound(s'.claimed[i].task)
      {
        StepOnJob(su, original, s, q, newToken, i);
      }
      UpdateKeeps(su, original, s, s');
    }
  }

  /** A request with a job token changes nothing but its own fixture. */
  lemma JobTokenIsConfined(su: Setup, original: seq<Fixture>, s: State, q: Request, newToken: Word)
    requires GoodSetup(su) && Inv(su, original, s) && q.bearer != su.token
    ensures Positions(s)
    ensures var s' := Step(su, s, q, newToken);
            && s' == s.(claimed := s'.claimed) && |s'.claimed| == |s.claimed|
            && forall i :: 0 <= i < |s.claimed| && s'.claimed[i] != s.claimed[i] ==> s.claimed[i].token == q.bearer
  {
    var s' := Step(su, s, q, newToken);
    RouteIs(su, s, q);
    forall i | 0 <= i < |s.claimed| && s.claimed[i].token != q.bearer ensures s'.claimed[i] == s.claimed[i] {
      StepOnJob(su, original, s, q, newToken, i);
    }
  }

  // ----- every run -----

  datatype Event = Event(q: Request, newToken: Word) | Drain

  function Next(su: Setup, s: State, e: Event): (s': State)
    requires Positions(s)
    ensures Positions(s')
  {
    if e.Drain? then s.(drained := true) else Step(su, s, e.q, e.newToken)
  }

  function Run(su: Setup, s: State, events: seq<Event>): (s': State)
    requires Positions(s)
    ensures Positions(s')
  {
    if events == [] then s else Next(su, Run(su, s, events[..|events| - 1]), events[|events| - 1])
  }

  predicate FreshTokens(su: Setup, s: State, events: seq<Event>)
    requires Positions(s)
  {
    forall n :: 0 <= n < |events| && events[n].Event? ==> FreshToken(su, Run(su, s, events[..n]), events[n].newToken)
  }

  function Start(fixtures: seq<Fixture>): State { State(fixtures, [], map[], map[], 0, false) }

  lemma FreshFront(su: Setup, s: State, events: seq<Event>)
    requires Positions(s) && FreshTokens(su, s, events) && events != []
    ensures FreshTokens(su, s, events[..|events| - 1])
    ensures events[|events| - 1].Event? ==>
              FreshToken(su, Run(su, s, events[..|events| - 1]), events[|events| - 1].newToken)
  {
    var front := events[..|events| - 1];
    forall n | 0 <= n < |front| && front[n].Event? ensures FreshToken(su, Run(su, s, front[..n]), front[n].newToken) {
      assert front[..n] == events[..n];
    }
  }

  lemma {:induction false} RunKeeps(su: Setup, original: seq<Fixture>, s: State, events: seq<Event>)
    requires GoodSetup(su) && Inv(su, original, s) && Positions(s) && FreshTokens(su, s, events)
    ensures Inv(su, original, Run(su, s, events))
  {
    if events != [] {
      var front, e := events[..|events| - 1], events[|events| - 1];
      FreshFront(su, s, events);
      RunKeeps(su, original, s, front);
      if e.Event? { StepKeeps(su, original, Run(su, s, front), e.q, e.newToken); }
    }
  }

  /** From the start, over any run: the claimed fixtures followed by the queue are
      the original list, both indexes agree with the claimed list, and a completed
      fixture has a durable effect on record. */
  lemma HarnessIsConsistent(su: Setup, original: seq<Fixture>, events: seq<Event>)
    requires GoodSetup(su) && FreshTokens(su, Start(original), events)
    ensures Inv(su, original, Run(su, Start(original), events))
  {
    RunKeeps(su, original, Start(original), events);
  }

  ghost predicate Strangers(su: Setup, job: Job, events: seq<Event>) {
    forall n :: 0 <= n < |events| && events[n].Event? ==> Elsewhere(su, events[n].q, job)
  }

  /** How a fixture fares: it stays the same fixture, what the score reads of it is
      frozen once it is terminal, and strangers do not touch it at all. */
  predicate Carried(i: Job, j: Job, strangers: bool) {
    && SameIdentity(i, j)
    && (Terminal(i.task) ==> Frozen(i.task, j.task))
    && (strangers ==> j == i)
  }

  /** Over any run that goes on from a consistent state: a terminal fixture keeps
      its action, status, outputs, lead and auto-sends for good; and no number of
      requests that bear another job's token or name another job touches a fixture. */
  lemma {:induction false} FixturesAreIsolated(su: Setup, original: seq<Fixture>, s: State, events: seq<Event>, i: nat)
    requires GoodSetup(su) && Inv(su, original, s) && Positions(s) && FreshTokens(su, s, events) && i < |s.claimed|
    ensures i < |Run(su, s, events).claimed|
    ensures Carried(s.claimed[i], Run(su, s, events).claimed[i], Strangers(su, s.claimed[i], events))
  {
    if events != [] {
      var front, e := events[..|events| - 1], events[|events| - 1];
      FreshFront(su, s, events);
      FixturesAreIsolated(su, original, s, front, i);
      RunOnJob(su, original, s, front, e, i);
      assert Strangers(su, s.claimed[i], events) ==> Strangers(su, s.claimed[i], front) && Strangers(su, s.claimed[i], [e]);
    }
  }

  lemma RunOnJob(su: Setup, original: seq<Fixture>, s: State, front: seq<Event>, e: Event, i: nat)
    requires GoodSetup(su) && Inv(su, original, s) && Positions(s) && FreshTokens(su, s, front) && i < |Run(su, s, front).claimed|
    ensures i < |Next(su, Run(su, s, front), e).claimed|
    ensures var j := Run(su, s, front).claimed[i]; Carried(j, Next(su, Run(su, s, front), e).claimed[i], Strangers(su, j, [e]))
  {
    RunKeeps(su, original, s, front);
    NextOnJob(su, original, Run(su, s, front), e, i);
  }

  lemma NextOnJob(su: Setup, original: seq<Fixture>, s: State, e: Event, i: nat)
    requires GoodSetup(su) && Inv(su, original, s) && Positions(s) && i < |s.claimed|
    ensures i < |Next(su, s, e).claimed|
    ensures Carried(s.claimed[i], Next(su, s, e).claimed[i], Strangers(su, s.claimed[i], [e]))
  {
    if e.Event? {
      StepOnJob(su, original, s, e.q, e.newToken, i);
      assert Strangers(su, s.claimed[i], [e]) ==> Elsewhere(su, [e][0].q, s.claimed[i]);
    }
  }
}
