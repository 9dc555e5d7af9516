/** The harness without the assumption that a request is one step. Every critical
    section is a step of its own: routing a request under the harness's lock, and
    under a task's lock its fence, each section of its handler and each mark of a
    refusal. Any other requests may come between
    (internal/agenteval/conformance.go and fake.go). */
module Interleaved {
  import opened Wrappers
  import opened FakeTask
  import opened Conformance
  import Text

  datatype CallID = CallID(n: int)

  /** What a request has still to do: its fence, its first section, its second
      section, or the violations it is to leave behind. */
  datatype Stage =
    | Routed(job: nat, q: Request)
    | Passed(job: nat, q: Request)
    | Half(job: nat, q: Request)
    | Marking(who: seq<nat>)

  /** The atomic harness's setup, and how a task serves a request section by section. */
  datatype Handler = Handler(
    su: Setup, first: (Task, Request) -> Task, splits: (Task, Request) -> bool, second: (Task, Request) -> Task)

  datatype World = World(s: State, pending: map<CallID, Stage>)

  /** `seen` is what a scan for open jobs finds: it reads the tasks one by one while
      they go on changing, so it may be any of the claimed jobs. */
  datatype Turn = Arrive(call: CallID, q: Request, newToken: Word, seen: seq<nat>) | Advance(call: CallID) | Close

  predicate StageOk(s: State, p: Stage) {
    if p.Marking? then forall i :: i in p.who ==> i < |s.claimed| else p.job < |s.claimed|
  }

  ghost predicate WorldOk(w: World) {
    Positions(w.s) && forall c :: c in w.pending ==> StageOk(w.s, w.pending[c])
  }

  predicate CanTurn(w: World, s: Turn) {
    match s
    case Arrive(call, _, _, seen) => call !in w.pending && forall i :: i in seen ==> i < |w.s.claimed|
    case Advance(call) => call in w.pending
    case Close => true
  }

  // ----- routing -----

  /** The one case in which routing asks which jobs are open. */
  predicate Scans(su: Setup, q: Request) {
    q.bearer == su.token && !q.route.Claim? && !q.route.Unknown? && q.readable && Named(q).None?
  }

  function RouteSeen(su: Setup, s: State, q: Request, seen: seq<nat>): Routing
    requires Positions(s)
  {
    if !Scans(su, q) then RouteOf(su, s, q) else if |seen| == 1 then To(seen[0]) else NoSingle(seen)
  }

  function Arrived(su: Setup, s: State, r: Routing, newToken: Word): State {
    match r
    case NextFixture => ClaimNext(s, newToken)
    case NoSingle(_) => s.(unattributed := s.unattributed + 1)
    case _ => s
  }

  function StageOf(r: Routing, q: Request): Option<Stage> {
    match r
    case Violates(i) => Some(Marking([i]))
    case NoSingle(cs) => Some(Marking(cs))
    case To(i) => Some(Routed(i, q))
    case _ => None
  }

  // ----- advancing a request by one section -----

  /** The job a section works on, if it works on one. */
  function Target(p: Stage): (t: Option<nat>)
    ensures t.Some? ==> if p.Marking? then t.value in p.who else t.value == p.job
  {
    if !p.Marking? then Some(p.job) else if p.who == [] then None else Some(p.who[0])
  }

  /** What the section makes of its job's task. */
  function TaskAfter(h: Handler, k: Task, p: Stage): Task {
    match p
    case Routed(_, _) => k
    case Passed(_, q) => h.first(k, q)
    case Half(_, q) => h.second(k, q)
    case Marking(_) => k.(bindingViolation := true)
  }

  function OnTask(s: State, i: nat, k: Task): State
    requires i < |s.claimed|
  {
    s.(claimed := s.claimed[i := s.claimed[i].(task := k)])
  }

  function Advanced(h: Handler, s: State, p: Stage): State
    requires StageOk(s, p)
  {
    if Target(p).None? then s else OnTask(s, Target(p).value, TaskAfter(h, s.claimed[Target(p).value].task, p))
  }

  function NextStage(h: Handler, s: State, p: Stage): Option<Stage>
    requires StageOk(s, p)
  {
    match p
    case Routed(i, q) => if IsWrite(q.route) && Terminal(s.claimed[i].task) then None else Some(Passed(i, q))
    case Passed(i, q) => if h.splits(s.claimed[i].task, q) then Some(Half(i, q)) else None
    case Half(_, _) => None
    case Marking(who) => if |who| <= 1 then None else Some(Marking(who[1..]))
  }

  function WithStage(pending: map<CallID, Stage>, call: CallID, p: Option<Stage>): map<CallID, Stage> {
    if p.Some? then pending[call := p.value] else pending - {call}
  }

  function After(h: Handler, w: World, s: Turn): World
    requires WorldOk(w) && CanTurn(w, s)
  {
    match s
    case Arrive(call, q, newToken, seen) =>
      var r := RouteSeen(h.su, w.s, q, seen);
      World(Arrived(h.su, w.s, r, newToken), WithStage(w.pending, call, StageOf(r, q)))
    case Advance(call) =>
      var p := w.pending[call];
      World(Advanced(h, w.s, p), WithStage(w.pending, call, NextStage(h, w.s, p)))
    case Close => w.(s := w.s.(drained := true))
  }

  lemma ArrivedOk(su: Setup, s: State, q: Request, newToken: Word, seen: seq<nat>)
    requires Positions(s) && forall i :: i in seen ==> i < |s.claimed|
    ensures var r := RouteSeen(su, s, q, seen);
            var s' := Arrived(su, s, r, newToken);
            && Positions(s') && |s.claimed| <= |s'.claimed| && s'.claimed[..|s.claimed|] == s.claimed
            && (StageOf(r, q).Some? ==> StageOk(s', StageOf(r, q).value))
  {
    assert seen != [] ==> seen[0] in seen;
  }

  lemma AdvancedOk(h: Handler, s: State, p: Stage)
    requires Positions(s) && StageOk(s, p)
    ensures Positions(Advanced(h, s, p)) && |Advanced(h, s, p).claimed| == |s.claimed|
    ensures NextStage(h, s, p).Some? ==> StageOk(s, NextStage(h, s, p).value)
  {
    if p.Marking? && |p.who| > 1 { assert forall i :: i in p.who[1..] ==> i in p.who; }
  }

  lemma AfterOk(h: Handler, w: World, s: Turn)
    requires WorldOk(w) && CanTurn(w, s)
    ensures WorldOk(After(h, w, s)) && |w.s.claimed| <= |After(h, w, s).s.claimed|
  {
    if s.Arrive? {
      ArrivedOk(h.su, w.s, s.q, s.newToken, s.seen);
    } else if s.Advance? {
      AdvancedOk(h, w.s, w.pending[s.call]);
    }
  }

  // ----- runs -----

  ghost predicate Linked(h: Handler, ws: seq<World>, steps: seq<Turn>, i: nat)
    requires |ws| == |steps| + 1 && i < |steps|
  {
    WorldOk(ws[i]) && CanTurn(ws[i], steps[i]) && ws[i + 1] == After(h, ws[i], steps[i])
  }

  ghost predicate IsRun(h: Handler, ws: seq<World>, steps: seq<Turn>) {
    |ws| == |steps| + 1 && WorldOk(ws[0]) && forall i: nat :: i < |steps| ==> Linked(h, ws, steps, i)
  }

  /** A run at one of its worlds. */
  lemma RunAt(h: Handler, ws: seq<World>, steps: seq<Turn>, n: nat)
    requires IsRun(h, ws, steps) && n < |ws|
    ensures WorldOk(ws[n])
    ensures n < |steps| ==>
              CanTurn(ws[n], steps[n]) && ws[n + 1] == After(h, ws[n], steps[n]) && |ws[n].s.claimed| <= |ws[n + 1].s.claimed|
  {
    if n < |steps| {
      assert Linked(h, ws, steps, n);
      AfterOk(h, ws[n], steps[n]);
    }
    if n > 0 {
      assert Linked(h, ws, steps, n - 1);
      AfterOk(h, ws[n - 1], steps[n - 1]);
    }
  }

  /** What a task guarantees of the sections of its requests. */
  ghost predicate GoodHandler(h: Handler) {
    && (forall k: Task, q: Request {:trigger h.first(k, q)} ::
          Grown(k, h.first(k, q)) && (Sound(k) ==> Sound(h.first(k, q))) && (!IsWrite(q.route) ==> Frozen(k, h.first(k, q))))
    && (forall k: Task, q: Request {:trigger h.second(k, q)} ::
          Grown(k, h.second(k, q)) && (Sound(k) ==> Sound(h.second(k, q))))
  }

  function FakeHandler(tg: FakeTask.Target, token: Word): Handler {
    Handler(Setup(token, (k, q) => Serve(tg, k, q)), (k, q) => First(tg, k, q), (k, q) => Splits(tg, k, q), (k, q) => Second(tg, k, q))
  }

  lemma FakeTaskIsGoodHandler(tg: FakeTask.Target, token: Word)
    ensures GoodHandler(FakeHandler(tg, token))
  {
    forall k: Task, q: Request
      ensures Grown(k, First(tg, k, q)) && (Sound(k) ==> Sound(First(tg, k, q))) && (!IsWrite(q.route) ==> Frozen(k, First(tg, k, q)))
      ensures Grown(k, Second(tg, k, q)) && (Sound(k) ==> Sound(Second(tg, k, q)))
    {
      FirstKeeps(tg, k, q);
      SecondKeeps(tg, k, q);
    }
  }

  /** A section of a write: it may change what the score reads. */
  predicate Writes(p: Stage) { p.Half? || (p.Passed? && IsWrite(p.q.route)) }

  /** The step is such a section of a request on fixture i. */
  predicate Works(w: World, s: Turn, i: nat)
    requires CanTurn(w, s)
  {
    s.Advance? && Writes(w.pending[s.call]) && w.pending[s.call].job == i
  }

  /** The same fixture, with nothing taken back. */
  predicate Kept(j: Job, l: Job) {
    l.token == j.token && Grown(j.task, l.task) && (Sound(j.task) ==> Sound(l.task))
  }

  lemma TaskAfterKeeps(h: Handler, k: Task, p: Stage)
    requires GoodHandler(h)
    ensures Grown(k, TaskAfter(h, k, p)) && (Sound(k) ==> Sound(TaskAfter(h, k, p)))
    ensures !Writes(p) ==> Frozen(k, TaskAfter(h, k, p))
  {
    if p.Passed? {
      assert Grown(k, h.first(k, p.q));
    } else if p.Half? {
      assert Grown(k, h.second(k, p.q));
    }
  }

  lemma AdvanceOnJob(h: Handler, s: State, p: Stage, i: nat)
    requires GoodHandler(h) && StageOk(s, p) && i < |s.claimed|
    ensures var l := Advanced(h, s, p).claimed[i];
            && Kept(s.claimed[i], l)
            && if Writes(p) && p.job == i then l.task == TaskAfter(h, s.claimed[i].task, p) else Frozen(s.claimed[i].task, l.task)
  {
    TaskAfterKeeps(h, s.claimed[i].task, p);
    assert Target(p) != Some(i) ==> Advanced(h, s, p).claimed[i] == s.claimed[i];
  }

  /** One step, seen by a claimed fixture: nothing is taken back, and only a section
      of one of its own writes does more than mark it. */
  lemma TurnOnJob(h: Handler, w: World, s: Turn, i: nat)
    requires GoodHandler(h) && WorldOk(w) && CanTurn(w, s) && i < |w.s.claimed|
    ensures i < |After(h, w, s).s.claimed|
    ensures var j, l := w.s.claimed[i], After(h, w, s).s.claimed[i];
            && Kept(j, l)
            && if Works(w, s, i) then l.task == TaskAfter(h, j.task, w.pending[s.call]) else Frozen(j.task, l.task)
  {
    if s.Arrive? {
      ArrivedOk(h.su, w.s, s.q, s.newToken, s.seen);
      var s' := After(h, w, s).s;
      assert s'.claimed[..|w.s.claimed|][i] == w.s.claimed[i];
    } else if s.Advance? {
      AdvanceOnJob(h, w.s, w.pending[s.call], i);
    }
  }

  // ----- when a terminal fixture stays as it is -----

  /** The section, run on a terminal task, leaves what the score reads alone. */
  predicate Harmless(tg: FakeTask.Target, k: Task, p: Stage)
    requires Writes(p)
  {
    if p.Half? then SecondAddsNothing(k, p.q) else FirstAddsNothing(tg, k, p.q)
  }

  /** How the fake task answers a section that comes late. */
  ghost predicate ThawsExactly(h: Handler, tg: FakeTask.Target) {
    forall k: Task, p: Stage {:trigger TaskAfter(h, k, p)} ::
      Terminal(k) && Writes(p) ==> (Frozen(k, TaskAfter(h, k, p)) <==> Harmless(tg, k, p))
  }

  lemma FakeTaskThaws(tg: FakeTask.Target, token: Word)
    ensures ThawsExactly(FakeHandler(tg, token), tg)
  {
    var h := FakeHandler(tg, token);
    forall k: Task, p: Stage | Terminal(k) && Writes(p) ensures Frozen(k, TaskAfter(h, k, p)) <==> Harmless(tg, k, p) {
      if p.Half? { LateSecond(tg, k, p.q); } else { LateFirst(tg, k, p.q); }
    }
  }

  lemma FrozenEquivalence(k: Task, l: Task, m: Task)
    ensures Frozen(k, k) && (Frozen(k, l) ==> Frozen(l, k)) && (Frozen(k, l) && Frozen(l, m) ==> Frozen(k, m))
  {
  }

  ghost predicate StaysFrozen(ws: seq<World>, a: nat, i: nat, j: nat)
    requires a < |ws| && j < |ws|
  {
    i < |ws[a].s.claimed| && i < |ws[j].s.claimed| && Frozen(ws[a].s.claimed[i].task, ws[j].s.claimed[i].task)
  }

  /** Step j, if it is a section of a write on fixture i, changes nothing. */
  predicate HarmlessAt(tg: FakeTask.Target, ws: seq<World>, steps: seq<Turn>, i: nat, j: nat) {
    j < |ws| && j < |steps| && CanTurn(ws[j], steps[j]) && i < |ws[j].s.claimed| && Works(ws[j], steps[j], i) ==>
      Harmless(tg, ws[j].s.claimed[i].task, ws[j].pending[steps[j].call])
  }

  /** Step j keeps fixture i as it was exactly if it is harmless. */
  lemma FrozenStep(h: Handler, tg: FakeTask.Target, ws: seq<World>, steps: seq<Turn>, i: nat, j: nat)
    requires GoodHandler(h) && ThawsExactly(h, tg) && IsRun(h, ws, steps)
    requires j < |steps| && i < |ws[j].s.claimed| && Terminal(ws[j].s.claimed[i].task)
    ensures i < |ws[j + 1].s.claimed|
    ensures Frozen(ws[j].s.claimed[i].task, ws[j + 1].s.claimed[i].task) <==> HarmlessAt(tg, ws, steps, i, j)
  {
    RunAt(h, ws, steps, j);
    TurnOnJob(h, ws[j], steps[j], i);
  }

  lemma {:induction false} HarmlessKeepsFrozen(h: Handler, tg: FakeTask.Target, ws: seq<World>, steps: seq<Turn>, a: nat, i: nat, j: nat)
    requires GoodHandler(h) && ThawsExactly(h, tg) && IsRun(h, ws, steps)
    requires a <= j < |ws| && i < |ws[a].s.claimed| && Terminal(ws[a].s.claimed[i].task)
    requires forall n: nat :: a <= n < j ==> HarmlessAt(tg, ws, steps, i, n)
    ensures StaysFrozen(ws, a, i, j)
  {
    if a < j {
      HarmlessKeepsFrozen(h, tg, ws, steps, a, i, j - 1);
      FrozenStep(h, tg, ws, steps, i, j - 1);
      FrozenEquivalence(ws[a].s.claimed[i].task, ws[j - 1].s.claimed[i].task, ws[j].s.claimed[i].task);
    } else {
      FrozenEquivalence(ws[a].s.claimed[i].task, ws[a].s.claimed[i].task, ws[a].s.claimed[i].task);
    }
  }

  /** Exactly what freezing needs of the interleaving: a fixture that is terminal at
      some point of a run stays as it is for the rest of the run if and only if every
      section of a write that works on it from then on adds nothing. */
  lemma FrozenIffLateSectionsAddNothing(h: Handler, tg: FakeTask.Target, ws: seq<World>, steps: seq<Turn>, a: nat, i: nat)
    requires GoodHandler(h) && ThawsExactly(h, tg) && IsRun(h, ws, steps)
    requires a < |ws| && i < |ws[a].s.claimed| && Terminal(ws[a].s.claimed[i].task)
    ensures (forall j: nat :: a <= j < |ws| ==> StaysFrozen(ws, a, i, j)) <==>
            (forall j: nat :: a <= j < |steps| ==> HarmlessAt(tg, ws, steps, i, j))
  {
    if forall j: nat :: a <= j < |ws| ==> StaysFrozen(ws, a, i, j) {
      forall j: nat | a <= j < |steps| ensures HarmlessAt(tg, ws, steps, i, j) {
        assert StaysFrozen(ws, a, i, j) && StaysFrozen(ws, a, i, j + 1);
        FrozenStep(h, tg, ws, steps, i, j);
        FrozenEquivalence(ws[a].s.claimed[i].task, ws[j].s.claimed[i].task, ws[j + 1].s.claimed[i].task);
        FrozenEquivalence(ws[j].s.claimed[i].task, ws[a].s.claimed[i].task, ws[j + 1].s.claimed[i].task);
      }
    }
    if forall j: nat :: a <= j < |steps| ==> HarmlessAt(tg, ws, steps, i, j) {
      forall j: nat | a <= j < |ws| ensures StaysFrozen(ws, a, i, j) {
        HarmlessKeepsFrozen(h, tg, ws, steps, a, i, j);
      }
    }
  }

  // ----- what needs no atomicity -----

  /** Over every interleaving nothing a fixture recorded is taken back, and a
      terminal fixture stays terminal. */
  lemma {:induction false} FixturesOnlyGrow(h: Handler, ws: seq<World>, steps: seq<Turn>, a: nat, i: nat, j: nat)
    requires GoodHandler(h) && IsRun(h, ws, steps) && a <= j < |ws| && i < |ws[a].s.claimed|
    ensures i < |ws[j].s.claimed| && Kept(ws[a].s.claimed[i], ws[j].s.claimed[i])
  {
    if a < j {
      FixturesOnlyGrow(h, ws, steps, a, i, j - 1);
      RunAt(h, ws, steps, j - 1);
      TurnOnJob(h, ws[j - 1], steps[j - 1], i);
      KeptTransitive(ws[a].s.claimed[i], ws[j - 1].s.claimed[i], ws[j].s.claimed[i]);
    }
  }

  lemma KeptTransitive(j: Job, l: Job, m: Job)
    requires Kept(j, l) && Kept(l, m)
    ensures Kept(j, m)
  {
  }

  /** A forbidden marker in the text of an accepted reply is a leak in every result of
      its fixture from the moment the reply is recorded on, whatever comes between. */
  lemma ReplyLeaksAreReported(tg: FakeTask.Target, token: Word, ws: seq<World>, steps: seq<Turn>, n: nat, i: nat, q: Request, m: string, j: nat)
    requires IsRun(FakeHandler(tg, token), ws, steps) && n < j < |ws|
    requires steps[n].Advance? && steps[n].call in ws[n].pending && ws[n].pending[steps[n].call] == Passed(i, q)
    requires i < |ws[n].s.claimed| && LeakyReply(tg, ws[n].s.claimed[i].task, q, m)
    ensures i < |ws[j].s.claimed| && Leak("reply", "text", m) in ResultOf(tg, ws[j].s.claimed[i].task).leaks
    ensures ws[j].s.claimed[i].task.action == Reply
  {
    var h := FakeHandler(tg, token);
    var k := ws[n].s.claimed[i].task;
    FakeTaskIsGoodHandler(tg, token);
    RunAt(h, ws, steps, n);
    TurnOnJob(h, ws[n], steps[n], i);
    assert ws[n + 1].s.claimed[i].task == First(tg, k, q);
    FixturesOnlyGrow(h, ws, steps, n + 1, i, j);
    RecordedReplyLeaks(tg, k, q, ws[j].s.claimed[i].task, m);
  }

  lemma SectionKeeps(h: Handler, original: seq<Fixture>, s: State, p: Stage)
    requires GoodHandler(h) && Inv(h.su, original, s) && StageOk(s, p)
    ensures Inv(h.su, original, Advanced(h, s, p))
  {
    var s' := Advanced(h, s, p);
    forall n | 0 <= n < |s.claimed| ensures SameIdentity(s.claimed[n], s'.claimed[n]) && Sound(s'.claimed[n].task) {
      assert Sound(s.claimed[n].task);
      AdvanceOnJob(h, s, p, n);
    }
    UpdateKeeps(h.su, original, s, s');
  }

  lemma ArrivalKeeps(su: Setup, original: seq<Fixture>, s: State, r: Routing, newToken: Word)
    requires Inv(su, original, s) && FreshToken(su, s, newToken)
    ensures Inv(su, original, Arrived(su, s, r, newToken))
  {
    if r.NextFixture? {
      ClaimConserves(original, s, newToken);
      ClaimIndexes(su, s, newToken);
    } else {
      UpdateKeeps(su, original, s, Arrived(su, s, r, newToken));
    }
  }

  predicate TokenFresh(su: Setup, w: World, s: Turn) { s.Arrive? ==> FreshToken(su, w.s, s.newToken) }

  lemma TurnKeeps(h: Handler, original: seq<Fixture>, w: World, s: Turn)
    requires GoodHandler(h) && Inv(h.su, original, w.s) && WorldOk(w) && CanTurn(w, s) && TokenFresh(h.su, w, s)
    ensures Inv(h.su, original, After(h, w, s).s)
  {
    match s {
      case Arrive(call, q, newToken, seen) => ArrivalKeeps(h.su, original, w.s, RouteSeen(h.su, w.s, q, seen), newToken);
      case Advance(call) => SectionKeeps(h, original, w.s, w.pending[call]);
      case Close =>
    }
  }

  ghost predicate TokensFresh(su: Setup, ws: seq<World>, steps: seq<Turn>) {
    |ws| > |steps| && forall n: nat :: n < |steps| ==> TokenFresh(su, ws[n], steps[n])
  }

  /** The rest of the harness's consistency does not depend on atomic requests: over
      every interleaving the claimed fixtures followed by the queue are the original
      list, the indexes agree with it, and completed means durable. */
  lemma {:induction false} AlwaysConsistent(h: Handler, original: seq<Fixture>, ws: seq<World>, steps: seq<Turn>, j: nat)
    requires GoodHandler(h) && IsRun(h, ws, steps) && ws[0].s == Start(original) && TokensFresh(h.su, ws, steps) && j < |ws|
    ensures Inv(h.su, original, ws[j].s)
  {
    if j > 0 {
      AlwaysConsistent(h, original, ws, steps, j - 1);
      RunAt(h, ws, steps, j - 1);
      TurnKeeps(h, original, ws[j - 1], steps[j - 1]);
    }
  }

  predicate Concerns(p: Stage, i: nat) { if p.Marking? then i in p.who else p.job == i }

  /** The fixture is as it was, and no request for it is on its way. */
  ghost predicate Untouched(w: World, i: nat, job: Job) {
    i < |w.s.claimed| && w.s.claimed[i] == job && forall c :: c in w.pending ==> !Concerns(w.pending[c], i)
  }

  ghost predicate ByStranger(su: Setup, s: Turn, job: Job) { s.Arrive? ==> Elsewhere(su, s.q, job) }

  lemma StrangerArrives(h: Handler, s: State, q: Request, newToken: Word, seen: seq<nat>, i: nat)
    requires Positions(s) && Indexed(h.su, s) && i < |s.claimed| && Elsewhere(h.su, q, s.claimed[i])
    ensures var r := RouteSeen(h.su, s, q, seen);
            && Arrived(h.su, s, r, newToken).claimed[i] == s.claimed[i] && (StageOf(r, q).Some? ==> !Concerns(StageOf(r, q).value, i))
  {
    ElsewhereMisses(h.su, s, q, i);
    ElsewhereNeverScans(h.su, q, s.claimed[i]);
  }

  lemma ElsewhereNeverScans(su: Setup, q: Request, job: Job)
    requires Elsewhere(su, q, job)
    ensures !Scans(su, q)
  {
    if q.bearer == su.token && Routable(q) {
      var name :| NamesJob(q, name) && Text.Atoi(name) != Some(job.task.jobID);
      assert Named(q) == Some(name);
    }
  }

  lemma StrangerAdvances(h: Handler, s: State, p: Stage, i: nat)
    requires StageOk(s, p) && i < |s.claimed| && !Concerns(p, i)
    ensures Advanced(h, s, p).claimed[i] == s.claimed[i]
    ensures NextStage(h, s, p).Some? ==> !Concerns(NextStage(h, s, p).value, i)
  {
  }

  lemma TurnByStranger(h: Handler, w: World, s: Turn, i: nat, job: Job)
    requires WorldOk(w) && CanTurn(w, s) && Indexed(h.su, w.s) && Untouched(w, i, job) && ByStranger(h.su, s, job)
    ensures Untouched(After(h, w, s), i, job)
  {
    if s.Arrive? {
      StrangerArrives(h, w.s, s.q, s.newToken, s.seen, i);
    } else if s.Advance? {
      StrangerAdvances(h, w.s, w.pending[s.call], i);
    }
  }

  /** Nor does isolation: requests that bear another job's token or name another job
      never touch a fixture, however they interleave. */
  lemma {:induction false} StrangersNeverTouch(h: Handler, original: seq<Fixture>, ws: seq<World>, steps: seq<Turn>,
                                               a: nat, i: nat, j: nat, job: Job)
    requires GoodHandler(h) && IsRun(h, ws, steps) && ws[0].s == Start(original) && TokensFresh(h.su, ws, steps)
    requires a <= j < |ws| && Untouched(ws[a], i, job)
    requires forall n: nat :: a <= n < j ==> ByStranger(h.su, steps[n], job)
    ensures Untouched(ws[j], i, job)
  {
    if a < j {
      StrangersNeverTouch(h, original, ws, steps, a, i, j - 1, job);
      RunAt(h, ws, steps, j - 1);
      assert Indexed(h.su, ws[j - 1].s) by { AlwaysConsistent(h, original, ws, steps, j - 1); }
      TurnByStranger(h, ws[j - 1], steps[j - 1], i, job);
    }
  }

  // ----- without a break, the atomic harness -----

  function Left(p: Stage): nat {
    match p case Routed(_, _) => 3 case Passed(_, _) => 2 case Half(_, _) => 1 case Marking(who) => |who| + 1
  }

  /** The state when all sections of a request run without a break. */
  function Through(h: Handler, s: State, p: Stage): State
    requires Positions(s) && StageOk(s, p)
    decreases Left(p)
  {
    AdvancedOk(h, s, p);
    var next := NextStage(h, s, p);
    if next.None? then Advanced(h, s, p) else Through(h, Advanced(h, s, p), next.value)
  }

  /** The sections of a request are what the atomic harness serves at once. */
  ghost predicate Composes(h: Handler) {
    forall k: Task, q: Request {:trigger h.su.serve(k, q)} ::
      h.su.serve(k, q) == if h.splits(k, q) then h.second(h.first(k, q), q) else h.first(k, q)
  }

  lemma FakeTaskComposes(tg: FakeTask.Target, token: Word)
    ensures Composes(FakeHandler(tg, token))
  {
    forall k: Task, q: Request
      ensures Serve(tg, k, q) == if Splits(tg, k, q) then Second(tg, First(tg, k, q), q) else First(tg, k, q)
    {
      ServeIsItsSections(tg, k, q);
    }
  }

  lemma {:induction false} MarkedOneByOne(h: Handler, s: State, who: seq<nat>)
    requires Positions(s) && StageOk(s, Marking(who))
    ensures Through(h, s, Marking(who)) == s.(claimed := Marked(s.claimed, who))
    decreases |who|
  {
    if who == [] {
      assert Marked(s.claimed, who) == s.claimed;
    } else {
      var s' := Advanced(h, s, Marking(who));
      assert s' == s.(claimed := s.claimed[who[0] := Violating(s.claimed[who[0]])]);
      if |who| == 1 {
        assert Marked(s.claimed, who) == s'.claimed;
      } else {
        AdvancedOk(h, s, Marking(who));
        MarkedOneByOne(h, s', who[1..]);
        assert forall i :: i in who <==> i == who[0] || i in who[1..];
        assert Marked(s'.claimed, who[1..]) == Marked(s.claimed, who);
      }
    }
  }

  lemma ServedInSections(h: Handler, s: State, i: nat, q: Request)
    requires Positions(s) && i < |s.claimed| && Composes(h)
    ensures Through(h, s, Routed(i, q)) ==
            if IsWrite(q.route) && Terminal(s.claimed[i].task) then s
            else s.(claimed := s.claimed[i := s.claimed[i].(task := h.su.serve(s.claimed[i].task, q))])
  {
    var k := s.claimed[i].task;
    assert OnTask(s, i, k) == s by { assert s.claimed[i := s.claimed[i]] == s.claimed; }
    if !(IsWrite(q.route) && Terminal(k)) {
      var s1 := OnTask(s, i, h.first(k, q));
      assert Through(h, s, Routed(i, q)) == Through(h, s, Passed(i, q));
      assert Advanced(h, s, Passed(i, q)) == s1;
      if h.splits(k, q) {
        assert Through(h, s, Passed(i, q)) == Through(h, s1, Half(i, q));
        assert Through(h, s1, Half(i, q)) == OnTask(s1, i, h.second(h.first(k, q), q));
        assert s1.claimed[i := s1.claimed[i].(task := h.second(h.first(k, q), q))]
            == s.claimed[i := s.claimed[i].(task := h.second(h.first(k, q), q))];
      }
    }
  }

  /** A request whose sections follow one another at once is one step of the atomic
      harness, if the scan saw the jobs that are open. */
  lemma AtOnceIsStep(h: Handler, s: State, q: Request, newToken: Word)
    requires Positions(s) && Composes(h)
    ensures var r := RouteSeen(h.su, s, q, Open(s.claimed, |s.claimed|));
            var s' := Arrived(h.su, s, r, newToken);
            && Positions(s') && (StageOf(r, q).Some? ==> StageOk(s', StageOf(r, q).value))
            && (if StageOf(r, q).Some? then Through(h, s', StageOf(r, q).value) else s') == Step(h.su, s, q, newToken)
  {
    var seen := Open(s.claimed, |s.claimed|);
    var r := RouteSeen(h.su, s, q, seen);
    ArrivedOk(h.su, s, q, newToken, seen);
    assert r == RouteOf(h.su, s, q);
    var s' := Arrived(h.su, s, r, newToken);
    match r {
      case Violates(i) => MarkedOneByOne(h, s', [i]);
      case NoSingle(cs) => MarkedOneByOne(h, s', cs);
      case To(i) => ServedInSections(h, s, i, q);
      case _ =>
    }
  }

  // ----- late sections -----

  lemma Extend(h: Handler, ws: seq<World>, steps: seq<Turn>, s: Turn) returns (vs: seq<World>, more: seq<Turn>)
    requires IsRun(h, ws, steps) && CanTurn(ws[|steps|], s)
    ensures WorldOk(ws[|steps|])
    ensures vs == ws + [After(h, ws[|steps|], s)] && more == steps + [s] && IsRun(h, vs, more) && vs[0] == ws[0]
    ensures |more| == |steps| + 1 && vs[|more|] == After(h, ws[|steps|], s) && vs[|steps|] == ws[|steps|]
  {
    RunAt(h, ws, steps, |steps|);
    vs, more := ws + [After(h, ws[|steps|], s)], steps + [s];
    forall i: nat | i < |more| ensures Linked(h, vs, more, i) {
      if i < |steps| {
        assert Linked(h, ws, steps, i);
        assert vs[i] == ws[i] && vs[i + 1] == ws[i + 1] && more[i] == steps[i];
      }
    }
  }

  function Completion(job: string, status: string): Request {
    Request(Word("token"), Complete(job), true, None, Some(Body(None, Some(ATTEMPT), None, None, [Field("status", status, true)])), false)
  }

  lemma CompletionStatus(job: string, status: string)
    ensures StringOr(Completion(job, status).body.value, "status") == status
  {
    assert Lookup(Completion(job, status).body.value.fields, "status") == Some(Field("status", status, true));
  }

  /** A reply that the dry run would send. */
  function SentReply(jobID: int): Request {
    Request(Word("token"), ProposeReply, true, None,
            Some(Body(Some(jobID), Some(ATTEMPT), Some(CONVERSATION), None, [])), true)
  }

  const CLAIM := Request(Word("harness"), Claim, true, None, None, false)

  /** The harness with one claimed fixture. */
  function WithTask(k: Task): State {
    State([], [Job(k, Word("token"))], map[Word("token") := 0], map[FIRST_JOB_ID := 0], 0, false)
  }

  lemma ClaimOne(h: Handler, f: Fixture) returns (ws: seq<World>, steps: seq<Turn>)
    requires h.su.token == Word("harness")
    ensures IsRun(h, ws, steps) && ws[0] == World(Start([f]), map[])
    ensures ws[|steps|] == World(WithTask(NewTask(f, FIRST_JOB_ID)), map[])
  {
    ws, steps := [World(Start([f]), map[])], [];
    ws, steps := Extend(h, ws, steps, Arrive(CallID(0), CLAIM, Word("token"), []));
    assert ws[|steps|].s == WithTask(NewTask(f, FIRST_JOB_ID));
    assert ws[|steps|].pending == map[];
  }

  /** A request of the claimed job's own token arrives and passes the fence. */
  lemma Admit(h: Handler, ws: seq<World>, steps: seq<Turn>, k: Task, pending: map<CallID, Stage>, call: CallID, q: Request)
    returns (vs: seq<World>, more: seq<Turn>)
    requires IsRun(h, ws, steps) && ws[|steps|] == World(WithTask(k), pending) && h.su.token == Word("harness")
    requires call !in pending && k.jobID == FIRST_JOB_ID && !Terminal(k)
    requires q.bearer == Word("token") && !q.route.Claim? && !q.route.Unknown? && q.readable
    requires Named(q).None? || Named(q).value == Text.Itoa(FIRST_JOB_ID)
    ensures IsRun(h, vs, more) && vs[0] == ws[0] && |more| > 0
    ensures vs[|more|] == World(WithTask(k), pending[call := Passed(0, q)])
  {
    RunAt(h, ws, steps, |steps|);
    assert RouteSeen(h.su, WithTask(k), q, []) == To(0);
    vs, more := Extend(h, ws, steps, Arrive(call, q, Word(""), []));
    assert vs[|more|] == World(WithTask(k), pending[call := Routed(0, q)]);
    vs, more := Extend(h, vs, more, Advance(call));
    assert vs[|more|].s == WithTask(k) by { assert WithTask(k).claimed[0 := WithTask(k).claimed[0]] == WithTask(k).claimed; }
    assert vs[|more|].pending == pending[call := Passed(0, q)];
  }

  /** A section of a request on the claimed job. */
  lemma Section(h: Handler, ws: seq<World>, steps: seq<Turn>, k: Task, pending: map<CallID, Stage>, call: CallID)
    returns (vs: seq<World>, more: seq<Turn>)
    requires IsRun(h, ws, steps) && ws[|steps|] == World(WithTask(k), pending)
    requires call in pending && (pending[call].Passed? || pending[call].Half?) && pending[call].job == 0
    ensures IsRun(h, vs, more) && vs[0] == ws[0] && |more| == |steps| + 1 && vs[|steps|] == ws[|steps|]
    ensures vs[|more|].s == WithTask(TaskAfter(h, k, pending[call]))
    ensures vs[|more|].pending == WithStage(pending, call,
              if pending[call].Passed? && h.splits(k, pending[call].q) then Some(Half(0, pending[call].q)) else None)
  {
    vs, more := Extend(h, ws, steps, Advance(call));
    assert vs[|more|].s == WithTask(TaskAfter(h, k, pending[call])) by {
      assert WithTask(k).claimed[0 := Job(TaskAfter(h, k, pending[call]), Word("token"))] == WithTask(TaskAfter(h, k, pending[call])).claimed;
    }
  }

  /** A request of one section is admitted and served. */
  lemma ServedNow(h: Handler, ws: seq<World>, steps: seq<Turn>, k: Task, pending: map<CallID, Stage>, call: CallID, q: Request)
    returns (vs: seq<World>, more: seq<Turn>)
    requires IsRun(h, ws, steps) && ws[|steps|] == World(WithTask(k), pending) && h.su.token == Word("harness")
    requires call !in pending && k.jobID == FIRST_JOB_ID && !Terminal(k) && !h.splits(k, q)
    requires q.bearer == Word("token") && !q.route.Claim? && !q.route.Unknown? && q.readable
    requires Named(q).None? || Named(q).value == Text.Itoa(FIRST_JOB_ID)
    ensures IsRun(h, vs, more) && vs[0] == ws[0] && vs[|more|] == World(WithTask(h.first(k, q)), pending)
  {
    vs, more := Admit(h, ws, steps, k, pending, call, q);
    vs, more := Section(h, vs, more, k, pending[call := Passed(0, q)], call);
    assert pending[call := Passed(0, q)] - {call} == pending;
  }

  ghost predicate Thaws(ws: seq<World>, steps: seq<Turn>) {
    && |ws| == |steps| + 1 && |steps| > 0
    && |ws[|steps| - 1].s.claimed| == 1 && |ws[|steps|].s.claimed| == 1
    && var k, l := ws[|steps| - 1].s.claimed[0].task, ws[|steps|].s.claimed[0].task;
       Terminal(k) && !Frozen(k, l)
  }

  /** The claimed fixture once its reply is recorded and not yet judged. */
  function Halfway(f: Fixture): Task {
    Record(NewTask(f, FIRST_JOB_ID), Reply, RecordedOutputs("reply", SentReply(FIRST_JOB_ID).body.value, RECORDED))
  }

  const HALF := map[CallID(1) := Half(0, SentReply(FIRST_JOB_ID))]

  lemma ReplyHalfway(tg: FakeTask.Target, f: Fixture) returns (ws: seq<World>, steps: seq<Turn>)
    requires tg.refuses(ProposeReply).None?
    ensures IsRun(FakeHandler(tg, Word("harness")), ws, steps) && ws[0] == World(Start([f]), map[])
    ensures ws[|steps|] == World(WithTask(Halfway(f)), HALF)
  {
    var h, q, k := FakeHandler(tg, Word("harness")), SentReply(FIRST_JOB_ID), NewTask(f, FIRST_JOB_ID);
    ws, steps := ClaimOne(h, f);
    ws, steps := Admit(h, ws, steps, k, map[], CallID(1), q);
    assert Splits(tg, k, q);
    ws, steps := Section(h, ws, steps, k, map[CallID(1) := Passed(0, q)], CallID(1));
    assert ws[|steps|].pending == HALF;
  }

  lemma Completes(tg: FakeTask.Target, k: Task, status: string)
    requires k.jobID == FIRST_JOB_ID && k.durable && tg.refuses(Complete(Text.Itoa(FIRST_JOB_ID))).None?
    requires status == "completed" || status == "failed"
    ensures var q := Completion(Text.Itoa(FIRST_JOB_ID), status);
            && !Splits(tg, k, q)
            && First(tg, k, q) == k.(status := if status == "completed" then Completed else Failed, complete := true)
  {
    CompletionStatus(Text.Itoa(FIRST_JOB_ID), status);
  }

  lemma CompletedNow(tg: FakeTask.Target, h: Handler, ws: seq<World>, steps: seq<Turn>, k: Task, pending: map<CallID, Stage>)
    returns (vs: seq<World>, more: seq<Turn>)
    requires h == FakeHandler(tg, Word("harness")) && tg.refuses(Complete(Text.Itoa(FIRST_JOB_ID))).None?
    requires IsRun(h, ws, steps) && ws[|steps|] == World(WithTask(k), pending) && CallID(2) !in pending
    requires k.jobID == FIRST_JOB_ID && !Terminal(k) && k.durable
    ensures IsRun(h, vs, more) && vs[0] == ws[0]
    ensures vs[|more|] == World(WithTask(k.(status := Completed, complete := true)), pending)
  {
    Completes(tg, k, "completed");
    vs, more := ServedNow(h, ws, steps, k, pending, CallID(2), Completion(Text.Itoa(FIRST_JOB_ID), "completed"));
  }

  /** A whole run over one fixture in which a completion comes between the two halves
      of a reply: the auto-send is counted on a fixture that is already terminal,
      though no write was served on it from its beginning after that. */
  lemma LateAutoSendRun(tg: FakeTask.Target, f: Fixture) returns (ws: seq<World>, steps: seq<Turn>)
    requires tg.refuses(ProposeReply).None? && tg.refuses(Complete(Text.Itoa(FIRST_JOB_ID))).None?
    ensures IsRun(FakeHandler(tg, Word("harness")), ws, steps) && ws[0] == World(Start([f]), map[]) && Thaws(ws, steps)
    ensures var k, l := ws[|steps| - 1].s.claimed[0].task, ws[|steps|].s.claimed[0].task;
            k.status == Completed && |k.autoSends| == 0 && |l.autoSends| == 1
  {
    var h, k := FakeHandler(tg, Word("harness")), Halfway(f);
    ws, steps := ReplyHalfway(tg, f);
    ws, steps := CompletedNow(tg, h, ws, steps, k, HALF);
    ws, steps := Section(h, ws, steps, k.(status := Completed, complete := true), HALF, CallID(1));
  }

  /** And one in which two completions pass the fence together: the second turns the
      failed fixture into a completed one. */
  lemma LateCompletionRun(tg: FakeTask.Target, f: Fixture) returns (ws: seq<World>, steps: seq<Turn>)
    requires tg.refuses(ProposeReply).None? && tg.refuses(Complete(Text.Itoa(FIRST_JOB_ID))).None?
    ensures IsRun(FakeHandler(tg, Word("harness")), ws, steps) && ws[0] == World(Start([f]), map[]) && Thaws(ws, steps)
    ensures ws[|steps| - 1].s.claimed[0].task.status == Failed && ws[|steps|].s.claimed[0].task.status == Completed
  {
    var h, k, job := FakeHandler(tg, Word("harness")), Halfway(f), Text.Itoa(FIRST_JOB_ID);
    var failed, done := Completion(job, "failed"), Completion(job, "completed");
    ws, steps := ReplyHalfway(tg, f);
    ws, steps := Admit(h, ws, steps, k, HALF, CallID(2), failed);
    var p := HALF[CallID(2) := Passed(0, failed)];
    ws, steps := Admit(h, ws, steps, k, p, CallID(3), done);
    p := p[CallID(3) := Passed(0, done)];
    Completes(tg, k, "failed");
    ws, steps := Section(h, ws, steps, k, p, CallID(2));
    var k2 := k.(status := Failed, complete := true);
    Completes(tg, k2, "completed");
    ws, steps := Section(h, ws, steps, k2, p - {CallID(2)}, CallID(3));
  }
}
