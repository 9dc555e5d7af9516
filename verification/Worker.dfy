/** The worker's poll loop, its slot channel and its per-conversation gate, as a
    transition system over every interleaving of the loop and any number of job
    goroutines.  One action is one atomic step: a channel send or receive, a
    critical section of the gate, or a return of foreign code.  `leave` is split
    at the points another goroutine can observe without the gate's mutex. */
module Worker {
  import opened Wrappers

  // ----- state -----

  /** One `convRun`: `closes` counts the closes of its done channel. */
  datatype Run = Run(conv: int, owner: nat, marked: bool, completed: bool, closes: nat)

  /** What a waiter read after `<-run.done`. */
  datatype Woken = Woken(run: nat, completed: bool)

  datatype Phase =
    | Entering(last: Option<Woken>)  // in enter, about to lock
    | Waiting(run: nat)             // in enter, blocked on run.done
    | Running(last: Option<Woken>)   // in runner.Run
    | Leaving                       // Run returned, leave not yet locked
    | Deleted(run: nat)             // in leave: map entry deleted
    | Marked(run: nat)              // in leave: completed stored
    | Unlocking                     // in leave: done closed
    | Left                          // runJob returned, slot not yet received
    | Ended                         // wg.Done

  /** `run` is the run the job entered under; `completed` is runJob's local. */
  datatype Job = Job(conv: int, slotted: bool, phase: Phase, run: nat, completed: bool)

  datatype Pc =
    | Top
    | Acquire
    | More
    | Polling
    | ReleaseAll(k: int)
    | ReleaseSpare(asked: int, convs: seq<int>, k: int)
    | Failed
    | Spawning(asked: int, convs: seq<int>, i: nat)
    | Draining(fatal: bool)
    | Stopped(fatal: bool)

  datatype State = State(
    n: nat, occ: nat, held: int, pc: Pc, cancelled: bool,
    jobs: seq<Job>, running: map<int, nat>, runs: seq<Run>, mutex: Option<nat>)

  datatype LoopAct =
    | CheckContext
    | TakeSlot
    | GiveUp                         // <-ctx.Done() while waiting for a slot
    | TakeMore
    | StopTaking                     // default branch, or held == n
    | PollFailed
    | PollReturned(convs: seq<int>)  // any number of jobs, asked for or not
    | ReleaseOne
    | Released
    | Retry                          // slept, poll again
    | Abandon(fatal: bool)           // cancelled, or a 401/403
    | Spawn
    | Spawned
    | SetStopped                     // wg.Wait returned

  datatype JobAct = Enter | Wake | Return(ok: bool) | Delete | Mark | Close | Unlock | Finish

  datatype Action = Cancel | Loop(act: LoopAct) | Do(j: nat, step: JobAct)

  function Init(n: nat): State {
    State(n, 0, 0, Top, false, [], map[], [], None)
  }

  // ----- steps of the loop -----

  predicate LoopEnabled(s: State, a: LoopAct) {
    match a
    case CheckContext => s.pc.Top?
    case TakeSlot => s.pc.Acquire? && s.occ < s.n
    case GiveUp => s.pc.Acquire? && s.cancelled
    case TakeMore => s.pc.More? && s.held < s.n && s.occ < s.n
    case StopTaking => s.pc.More? && (s.held >= s.n || s.occ >= s.n)
    case PollFailed => s.pc.Polling?
    case PollReturned(_) => s.pc.Polling?
    case ReleaseOne => (s.pc.ReleaseAll? || s.pc.ReleaseSpare?) && s.pc.k > 0 && s.occ > 0
    case Released => (s.pc.ReleaseAll? || s.pc.ReleaseSpare?) && s.pc.k == 0
    case Retry => s.pc.Failed?
    case Abandon(fatal) => s.pc.Failed? && (fatal || s.cancelled)
    case Spawn => s.pc.Spawning? && s.pc.i < |s.pc.convs|
    case Spawned => s.pc.Spawning? && s.pc.i >= |s.pc.convs|
    case SetStopped => s.pc.Draining? && forall j :: 0 <= j < |s.jobs| ==> s.jobs[j].phase.Ended?
  }

  function LoopApply(s: State, a: LoopAct): State
    requires LoopEnabled(s, a)
  {
    match a
    case CheckContext => s.(pc := if s.cancelled then Draining(false) else Acquire)
    case TakeSlot => s.(occ := s.occ + 1, held := 1, pc := More)
    case GiveUp => s.(pc := Draining(false))
    case TakeMore => s.(occ := s.occ + 1, held := s.held + 1)
    case StopTaking => s.(pc := Polling)
    case PollFailed => s.(pc := ReleaseAll(s.held))
    case PollReturned(convs) =>
      s.(pc := ReleaseSpare(s.held, convs, if |convs| < s.held then s.held - |convs| else 0))
    case ReleaseOne =>
      s.(occ := s.occ - 1, held := s.held - 1,
         pc := if s.pc.ReleaseAll? then ReleaseAll(s.pc.k - 1)
               else ReleaseSpare(s.pc.asked, s.pc.convs, s.pc.k - 1))
    case Released => s.(pc := if s.pc.ReleaseAll? then Failed else Spawning(s.pc.asked, s.pc.convs, 0))
    case Retry => s.(pc := Top)
    case Abandon(fatal) => s.(pc := Draining(fatal && !s.cancelled))
    case Spawn =>
      var slotted := s.pc.i < s.pc.asked;
      s.(jobs := s.jobs + [Job(s.pc.convs[s.pc.i], slotted, Entering(None), 0, false)],
         held := if slotted then s.held - 1 else s.held,
         pc := Spawning(s.pc.asked, s.pc.convs, s.pc.i + 1))
    case Spawned => s.(pc := Top)
    case SetStopped => s.(pc := Stopped(s.pc.fatal))
  }

  // ----- steps of a job goroutine -----

  predicate JobEnabled(s: State, j: nat, a: JobAct) {
    && j < |s.jobs|
    && var job := s.jobs[j];
       match a
       case Enter => job.phase.Entering? && (job.conv != 0 ==> s.mutex.None?)
       case Wake => job.phase.Waiting? && job.phase.run < |s.runs| && s.runs[job.phase.run].closes > 0
       case Return(_) => job.phase.Running?
       case Delete => job.phase.Leaving? && (job.conv != 0 ==> s.mutex.None?)
       case Mark => job.phase.Deleted? && job.phase.run < |s.runs|
       case Close => job.phase.Marked? && job.phase.run < |s.runs|
       case Unlock => job.phase.Unlocking?
       case Finish => job.phase.Left? && (job.slotted ==> s.occ > 0)
  }

  function WithPhase(s: State, j: nat, p: Phase): State
    requires j < |s.jobs|
  {
    s.(jobs := s.jobs[j := s.jobs[j].(phase := p)])
  }

  /** One turn of enter's loop: mark the conversation running, or find it busy. */
  function EnterStep(s: State, j: nat): State
    requires JobEnabled(s, j, Enter)
  {
    var job := s.jobs[j];
    if job.conv == 0 then WithPhase(s, j, Running(job.phase.last))
    else if job.conv in s.running then WithPhase(s, j, Waiting(s.running[job.conv]))
    else
      s.(jobs := s.jobs[j := job.(phase := Running(job.phase.last), run := |s.runs|)],
         running := s.running[job.conv := |s.runs|],
         runs := s.runs + [Run(job.conv, j, false, false, 0)])
  }

  function WakeStep(s: State, j: nat): State
    requires JobEnabled(s, j, Wake)
  {
    var r := s.jobs[j].phase.run;
    WithPhase(s, j, Entering(Some(Woken(r, s.runs[r].completed))))
  }

  function ReturnStep(s: State, j: nat, ok: bool): State
    requires JobEnabled(s, j, Return(ok))
  {
    s.(jobs := s.jobs[j := s.jobs[j].(phase := Leaving, completed := ok)])
  }

  function DeleteStep(s: State, j: nat): State
    requires JobEnabled(s, j, Delete)
  {
    var conv := s.jobs[j].conv;
    if conv == 0 then WithPhase(s, j, Left)
    else if conv in s.running then
      WithPhase(s, j, Deleted(s.running[conv])).(running := s.running - {conv}, mutex := Some(j))
    else WithPhase(s, j, Unlocking).(mutex := Some(j))
  }

  function MarkStep(s: State, j: nat): State
    requires JobEnabled(s, j, Mark)
  {
    var r := s.jobs[j].phase.run;
    WithPhase(s, j, Marked(r)).(runs := s.runs[r := s.runs[r].(marked := true, completed := s.jobs[j].completed)])
  }

  function CloseStep(s: State, j: nat): State
    requires JobEnabled(s, j, Close)
  {
    var r := s.jobs[j].phase.run;
    WithPhase(s, j, Unlocking).(runs := s.runs[r := s.runs[r].(closes := s.runs[r].closes + 1)])
  }

  function FinishStep(s: State, j: nat): State
    requires JobEnabled(s, j, Finish)
  {
    WithPhase(s, j, Ended).(occ := if s.jobs[j].slotted then s.occ - 1 else s.occ)
  }

  function JobApply(s: State, j: nat, a: JobAct): State
    requires JobEnabled(s, j, a)
  {
    match a
    case Enter => EnterStep(s, j)
    case Wake => WakeStep(s, j)
    case Return(ok) => ReturnStep(s, j, ok)
    case Delete => DeleteStep(s, j)
    case Mark => MarkStep(s, j)
    case Close => CloseStep(s, j)
    case Unlock => WithPhase(s, j, Left).(mutex := None)
    case Finish => FinishStep(s, j)
  }

  predicate Enabled(s: State, a: Action) {
    match a
    case Cancel => true
    case Loop(act) => LoopEnabled(s, act)
    case Do(j, act) => JobEnabled(s, j, act)
  }

  function Apply(s: State, a: Action): State
    requires Enabled(s, a)
  {
    match a
    case Cancel => s.(cancelled := true)
    case Loop(act) => LoopApply(s, act)
    case Do(j, act) => JobApply(s, j, act)
  }

  /** The state after a run of actions, None when some action is not enabled. */
  function Exec(s: State, acts: seq<Action>): Option<State>
    decreases |acts|
  {
    if acts == [] then Some(s)
    else if Enabled(s, acts[0]) then Exec(Apply(s, acts[0]), acts[1..])
    else None
  }

  // ----- the gate's invariant -----

  /** Between a successful enter and leave's critical section. */
  predicate Inside(job: Job) { job.phase.Running? || job.phase.Leaving? }

  predicate InLeave(job: Job) { job.phase.Deleted? || job.phase.Marked? || job.phase.Unlocking? }

  predicate WakeOk(s: State, conv: int, last: Option<Woken>) {
    last.Some? ==>
      && last.value.run < |s.runs| && s.runs[last.value.run].conv == conv
      && s.runs[last.value.run].closes == 1 && s.runs[last.value.run].completed == last.value.completed
  }

  predicate JobOk(s: State, j: nat)
    requires j < |s.jobs|
  {
    var job := s.jobs[j];
    && (Inside(job) && job.conv != 0 ==>
          && job.conv in s.running && s.running[job.conv] == job.run
          && job.run < |s.runs| && s.runs[job.run].owner == j)
    && (job.phase.Deleted? || job.phase.Marked? ==>
          && job.phase.run == job.run && job.run < |s.runs| && job.conv !in s.running
          && s.runs[job.run].owner == j && s.runs[job.run].closes == 0)
    && (job.phase.Marked? ==> s.runs[job.run].marked && s.runs[job.run].completed == job.completed)
    && (InLeave(job) ==> s.mutex == Some(j) && job.conv != 0)
    && (job.phase.Waiting? ==>
          job.conv != 0 && job.phase.run < |s.runs| && s.runs[job.phase.run].conv == job.conv)
    && (job.phase.Entering? ==> WakeOk(s, job.conv, job.phase.last))
    && (job.phase.Running? ==> WakeOk(s, job.conv, job.phase.last))
  }

  predicate RunOk(s: State, r: nat)
    requires r < |s.runs|
  {
    var run := s.runs[r];
    && run.conv != 0 && run.owner < |s.jobs|
    && s.jobs[run.owner].conv == run.conv && s.jobs[run.owner].run == r
    && run.closes <= 1
    && (run.closes == 1 ==>
          && run.marked && run.completed == s.jobs[run.owner].completed
          && (s.jobs[run.owner].phase.Unlocking? || s.jobs[run.owner].phase.Left? || s.jobs[run.owner].phase.Ended?))
    && (run.closes == 0 ==>
          Inside(s.jobs[run.owner]) || s.jobs[run.owner].phase.Deleted? || s.jobs[run.owner].phase.Marked?)
  }

  predicate EntryOk(s: State, c: int)
    requires c in s.running
  {
    && c != 0 && s.running[c] < |s.runs| && s.runs[s.running[c]].conv == c
    && s.runs[s.running[c]].closes == 0 && s.runs[s.running[c]].owner < |s.jobs|
    && Inside(s.jobs[s.runs[s.running[c]].owner])
  }

  predicate GateInv(s: State) {
    && (forall j :: 0 <= j < |s.jobs| ==> JobOk(s, j))
    && (forall r :: 0 <= r < |s.runs| ==> RunOk(s, r))
    && (forall c :: c in s.running ==> EntryOk(s, c))
    && (s.mutex.Some? ==> s.mutex.value < |s.jobs| && InLeave(s.jobs[s.mutex.value]))
  }

  // ----- sums over jobs -----

  function Total(js: seq<Job>, f: Job -> nat): nat {
    if js == [] then 0 else f(js[0]) + Total(js[1..], f)
  }

  lemma {:induction false} TotalAppend(js: seq<Job>, x: Job, f: Job -> nat)
    ensures Total(js + [x], f) == Total(js, f) + f(x)
  {
    if js == [] {
      assert js + [x] == [x];
    } else {
      TotalAppend(js[1..], x, f);
      assert (js + [x])[1..] == js[1..] + [x];
    }
  }

  lemma {:induction false} TotalUpdate(js: seq<Job>, j: nat, x: Job, f: Job -> nat)
    requires j < |js|
    ensures Total(js[j := x], f) == Total(js, f) - f(js[j]) + f(x)
    ensures Total(js, f) >= f(js[j])
  {
    if j == 0 {
      assert js[j := x][1..] == js[1..];
    } else {
      TotalUpdate(js[1..], j - 1, x, f);
      assert js[j := x][1..] == js[1..][j - 1 := x];
    }
  }

  lemma {:induction false} TotalSame(js: seq<Job>, f: Job -> nat, g: Job -> nat)
    requires forall j :: 0 <= j < |js| ==> f(js[j]) == g(js[j])
    ensures Total(js, f) == Total(js, g)
  {
    if js != [] {
      assert forall j :: 0 <= j < |js[1..]| ==> js[1..][j] == js[j + 1];
      TotalSame(js[1..], f, g);
    }
  }

  lemma {:induction false} TotalBound(js: seq<Job>, f: Job -> nat, b: nat)
    requires forall j :: 0 <= j < |js| ==> f(js[j]) <= b
    ensures Total(js, f) <= |js| * b
  {
    if js != [] {
      assert forall j :: 0 <= j < |js[1..]| ==> js[1..][j] == js[j + 1];
      TotalBound(js[1..], f, b);
      assert |js| * b == b + (|js| - 1) * b;
    }
  }

  // ----- the slots' invariant -----

  /** Slots a job goroutine still holds. */
  function SlotsOf(job: Job): nat { if job.slotted && !job.phase.Ended? then 1 else 0 }

  function JobSlots(s: State): nat { Total(s.jobs, SlotsOf) }

  function Min(a: int, b: int): int { if a < b then a else b }

  /** How many slots the loop itself holds at each point. */
  predicate HeldOk(s: State) {
    match s.pc
    case More => 1 <= s.held <= s.n
    case Polling => 1 <= s.held <= s.n
    case ReleaseAll(k) => 0 <= s.held == k
    case ReleaseSpare(asked, convs, k) => 1 <= asked && 0 <= k && s.held == Min(asked, |convs|) + k
    case Spawning(asked, convs, i) =>
      1 <= asked && i <= |convs| && s.held == (if i < Min(asked, |convs|) then Min(asked, |convs|) - i else 0)
    case _ => s.held == 0
  }

  predicate SlotInv(s: State) {
    && 1 <= s.n && s.occ == s.held + JobSlots(s) && s.occ <= s.n && HeldOk(s)
    && (s.pc.Stopped? ==> forall j :: 0 <= j < |s.jobs| ==> s.jobs[j].phase.Ended?)
  }

  ghost predicate Inv(s: State) { GateInv(s) && SlotInv(s) }

  // ----- preservation -----

  /** The gate is untouched: only loop fields, or jobs appended at Entering(None). */
  lemma GateFrame(s: State, t: State)
    requires GateInv(s)
    requires t.runs == s.runs && t.running == s.running && t.mutex == s.mutex
    requires |s.jobs| <= |t.jobs|
    requires forall j :: 0 <= j < |s.jobs| ==> t.jobs[j] == s.jobs[j]
    requires forall j :: |s.jobs| <= j < |t.jobs| ==> t.jobs[j].phase == Entering(None)
    ensures GateInv(t)
  {
    forall j | 0 <= j < |t.jobs| ensures JobOk(t, j) {
      if j < |s.jobs| { assert JobOk(s, j); }
    }
    forall r | 0 <= r < |t.runs| ensures RunOk(t, r) { assert RunOk(s, r); }
    forall c | c in t.running ensures EntryOk(t, c) { assert EntryOk(s, c); }
  }

  /** One job moves between two phases outside the gate's critical sections. */
  lemma GateMove(s: State, t: State, j: nat)
    requires GateInv(s) && j < |s.jobs| == |t.jobs| && t.jobs == s.jobs[j := t.jobs[j]]
    requires t.runs == s.runs && t.running == s.running && t.mutex == s.mutex
    requires t.jobs[j].conv == s.jobs[j].conv && t.jobs[j].run == s.jobs[j].run
    requires Inside(s.jobs[j]) <==> Inside(t.jobs[j])
    requires !InLeave(s.jobs[j]) && !InLeave(t.jobs[j])
    requires s.jobs[j].phase.Left? || s.jobs[j].phase.Ended? ==>
               (t.jobs[j].phase.Left? || t.jobs[j].phase.Ended?) && t.jobs[j].completed == s.jobs[j].completed
    requires JobOk(t, j)
    ensures GateInv(t)
  {
    forall i | 0 <= i < |t.jobs| ensures JobOk(t, i) { assert JobOk(s, i); }
    forall r | 0 <= r < |t.runs| ensures RunOk(t, r) { assert RunOk(s, r); }
    forall c | c in t.running ensures EntryOk(t, c) { assert EntryOk(s, c); }
  }

  lemma EnterJobOk(s: State, j: nat, i: nat)
    requires JobEnabled(s, j, Enter) && i < |s.jobs| && JobOk(s, j) && JobOk(s, i)
    requires s.jobs[j].conv in s.running ==> EntryOk(s, s.jobs[j].conv)
    ensures JobOk(EnterStep(s, j), i)
  {
  }

  lemma EnterRunOk(s: State, j: nat, r: nat)
    requires GateInv(s) && JobEnabled(s, j, Enter) && r < |EnterStep(s, j).runs|
    ensures RunOk(EnterStep(s, j), r)
  {
    assert JobOk(s, j);
    if r < |s.runs| { assert RunOk(s, r); }
  }

  lemma GateEnter(s: State, j: nat)
    requires GateInv(s) && JobEnabled(s, j, Enter)
    ensures GateInv(EnterStep(s, j))
  {
    var t := EnterStep(s, j);
    forall i | 0 <= i < |t.jobs| ensures JobOk(t, i) {
      assert JobOk(s, i) && JobOk(s, j);
      EnterJobOk(s, j, i);
    }
    forall r | 0 <= r < |t.runs| ensures RunOk(t, r) { EnterRunOk(s, j, r); }
    forall c | c in t.running ensures EntryOk(t, c) {
      if c in s.running { assert EntryOk(s, c); }
    }
  }

  lemma GateDelete(s: State, j: nat)
    requires GateInv(s) && JobEnabled(s, j, Delete)
    ensures GateInv(DeleteStep(s, j))
  {
    var t := DeleteStep(s, j);
    assert JobOk(s, j);
    if s.jobs[j].conv == 0 {
      GateZero(s, t, j);
      return;
    }
    assert EntryOk(s, s.jobs[j].conv) && RunOk(s, s.jobs[j].run);
    forall i | 0 <= i < |t.jobs| ensures JobOk(t, i) {
      assert JobOk(s, i);
    }
    forall r | 0 <= r < |t.runs| ensures RunOk(t, r) { assert RunOk(s, r); }
    forall c | c in t.running ensures EntryOk(t, c) {
      assert EntryOk(s, c);
      assert RunOk(s, s.running[c]);
    }
  }

  /** An ungated job owns no run, so its moves leave the gate alone. */
  lemma GateZero(s: State, t: State, j: nat)
    requires GateInv(s) && j < |s.jobs| == |t.jobs| && t.jobs == s.jobs[j := t.jobs[j]]
    requires t.runs == s.runs && t.running == s.running && t.mutex == s.mutex
    requires s.jobs[j].conv == t.jobs[j].conv == 0
    requires t.jobs[j].phase.Left?
    requires s.jobs[j].phase.Leaving?
    ensures GateInv(t)
  {
    forall i | 0 <= i < |t.jobs| ensures JobOk(t, i) { assert JobOk(s, i); }
    forall r | 0 <= r < |t.runs| ensures RunOk(t, r) { assert RunOk(s, r); }
    forall c | c in t.running ensures EntryOk(t, c) {
      assert EntryOk(s, c);
      assert RunOk(s, s.running[c]);
    }
  }

  /** The holder of the mutex works on its own run and nobody else is in leave. */
  lemma GateHolder(s: State, t: State, j: nat)
    requires GateInv(s) && j < |s.jobs| == |t.jobs| && t.jobs == s.jobs[j := t.jobs[j]]
    requires s.jobs[j].phase.Deleted? || s.jobs[j].phase.Marked?
    requires t.running == s.running && t.mutex == s.mutex && |t.runs| == |s.runs|
    requires s.jobs[j].phase.run < |s.runs|
    requires t.runs == s.runs[s.jobs[j].phase.run := t.runs[s.jobs[j].phase.run]]
    requires t.runs[s.jobs[j].phase.run].conv == s.runs[s.jobs[j].phase.run].conv
    requires JobOk(t, j) && RunOk(t, s.jobs[j].phase.run)
    requires !Inside(t.jobs[j]) && InLeave(t.jobs[j])
    ensures GateInv(t)
  {
    assert JobOk(s, j);
    forall i | 0 <= i < |t.jobs| ensures JobOk(t, i) {
      assert JobOk(s, i);
    }
    forall r | 0 <= r < |t.runs| ensures RunOk(t, r) { assert RunOk(s, r); }
    forall c | c in t.running ensures EntryOk(t, c) {
      assert EntryOk(s, c);
      assert RunOk(s, s.running[c]);
    }
  }

  lemma GateUnlock(s: State, j: nat)
    requires GateInv(s) && JobEnabled(s, j, Unlock)
    ensures GateInv(WithPhase(s, j, Left).(mutex := None))
  {
    var t := WithPhase(s, j, Left).(mutex := None);
    forall i | 0 <= i < |t.jobs| ensures JobOk(t, i) { assert JobOk(s, i) && JobOk(s, j); }
    forall r | 0 <= r < |t.runs| ensures RunOk(t, r) { assert RunOk(s, r); }
    forall c | c in t.running ensures EntryOk(t, c) { assert EntryOk(s, c); }
  }

  lemma GateJobStep(s: State, j: nat, a: JobAct)
    requires GateInv(s) && JobEnabled(s, j, a)
    ensures GateInv(JobApply(s, j, a))
  {
    var t := JobApply(s, j, a);
    assert JobOk(s, j);
    match a
    case Enter => GateEnter(s, j);
    case Wake => assert RunOk(s, s.jobs[j].phase.run); GateMove(s, t, j);
    case Return(ok) => GateMove(s, t, j);
    case Delete => GateDelete(s, j);
    case Mark => assert RunOk(s, s.jobs[j].run); GateHolder(s, t, j);
    case Close => assert RunOk(s, s.jobs[j].run); GateHolder(s, t, j);
    case Unlock => GateUnlock(s, j);
    case Finish => GateMove(s, t, j);
  }

  lemma GateStep(s: State, a: Action)
    requires GateInv(s) && Enabled(s, a)
    ensures GateInv(Apply(s, a))
  {
    if a.Do? {
      GateJobStep(s, a.j, a.step);
    } else {
      GateFrame(s, Apply(s, a));
    }
  }

  /** What a job's step leaves alone, and how it moves the slots. */
  predicate JobStepShape(s: State, t: State, j: nat) {
    && j < |s.jobs| && |t.jobs| == |s.jobs| && t.jobs == s.jobs[j := t.jobs[j]]
    && t.n == s.n && t.held == s.held && t.pc == s.pc && !s.jobs[j].phase.Ended?
    && SlotsOf(t.jobs[j]) - SlotsOf(s.jobs[j]) == t.occ - s.occ <= 0
  }

  lemma JobStepHasShape(s: State, j: nat, a: JobAct)
    requires JobEnabled(s, j, a)
    ensures JobStepShape(s, JobApply(s, j, a), j)
  {
  }

  lemma ShapeKeepsSlots(s: State, t: State, j: nat)
    requires SlotInv(s) && JobStepShape(s, t, j)
    ensures SlotInv(t)
  {
    TotalUpdate(s.jobs, j, t.jobs[j], SlotsOf);
  }

  lemma SlotJobStep(s: State, j: nat, a: JobAct)
    requires SlotInv(s) && JobEnabled(s, j, a)
    ensures SlotInv(JobApply(s, j, a))
  {
    JobStepHasShape(s, j, a);
    ShapeKeepsSlots(s, JobApply(s, j, a), j);
  }

  lemma SlotSpawn(s: State)
    requires SlotInv(s) && LoopEnabled(s, Spawn)
    ensures SlotInv(LoopApply(s, Spawn))
  {
    TotalAppend(s.jobs, LoopApply(s, Spawn).jobs[|s.jobs|], SlotsOf);
  }

  lemma HeldStep(s: State, a: LoopAct)
    requires SlotInv(s) && LoopEnabled(s, a) && !a.Spawn?
    ensures var t := LoopApply(s, a);
            HeldOk(t) && t.n == s.n && t.occ - t.held == s.occ - s.held && t.occ <= t.n && t.jobs == s.jobs
  {
  }

  lemma SlotLoopStep(s: State, a: LoopAct)
    requires SlotInv(s) && LoopEnabled(s, a)
    ensures SlotInv(LoopApply(s, a))
  {
    if a.Spawn? {
      SlotSpawn(s);
    } else {
      HeldStep(s, a);
      assert JobSlots(LoopApply(s, a)) == JobSlots(s);
    }
  }

  lemma SlotStep(s: State, a: Action)
    requires SlotInv(s) && Enabled(s, a)
    ensures SlotInv(Apply(s, a))
  {
    match a
    case Cancel =>
    case Do(j, act) => SlotJobStep(s, j, act);
    case Loop(act) => SlotLoopStep(s, act);
  }

  // ----- main results -----

  lemma InvStep(s: State, a: Action)
    requires Inv(s) && Enabled(s, a)
    ensures Inv(Apply(s, a))
  {
    GateStep(s, a);
    SlotStep(s, a);
  }

  lemma {:induction false} InvExec(s: State, acts: seq<Action>)
    requires Inv(s) && Exec(s, acts).Some?
    ensures Inv(Exec(s, acts).value)
    decreases |acts|
  {
    if acts != [] {
      InvStep(s, acts[0]);
      InvExec(Apply(s, acts[0]), acts[1..]);
    }
  }

  /** Every state any interleaving reaches satisfies both invariants. */
  lemma Safety(n: nat, acts: seq<Action>)
    requires 1 <= n && Exec(Init(n), acts).Some?
    ensures Inv(Exec(Init(n), acts).value)
  {
    InvExec(Init(n), acts);
  }

  // ----- what an observer of the run notes -----

  /** The conversations of all jobs the server returned, in order; which jobs were
      woken; what each job's run returned; and whether the loop gave up for good. */
  datatype Log = Log(polled: seq<int>, woke: set<nat>, outcome: map<nat, bool>, cancelled: bool, fatal: bool)

  const NOTHING := Log([], {}, map[], false, false)

  function Noted(l: Log, a: Action): Log {
    match a
    case Cancel => l.(cancelled := true)
    case Loop(PollReturned(convs)) => l.(polled := l.polled + convs)
    case Loop(Abandon(fatal)) => l.(fatal := fatal && !l.cancelled)
    case Do(j, Wake) => l.(woke := l.woke + {j})
    case Do(j, Return(ok)) => l.(outcome := l.outcome[j := ok])
    case _ => l
  }

  function Observed(l: Log, acts: seq<Action>): Log
    decreases |acts|
  {
    if acts == [] then l else Observed(Noted(l, acts[0]), acts[1..])
  }

  function Convs(jobs: seq<Job>): seq<int> { seq(|jobs|, i requires 0 <= i < |jobs| => jobs[i].conv) }

  /** Returned jobs the loop has not spawned yet. */
  function Upcoming(pc: Pc): seq<int> {
    match pc
    case ReleaseSpare(_, convs, _) => convs
    case Spawning(_, convs, i) => if i <= |convs| then convs[i..] else []
    case _ => []
  }

  /** Every returned job is spawned once, in order, under its own conversation. */
  predicate SpawnsPolled(s: State, l: Log) { Convs(s.jobs) + Upcoming(s.pc) == l.polled }

  predicate WakesNoted(s: State, l: Log) {
    && (forall j :: j in l.woke ==> j < |s.jobs|)
    && (forall j :: 0 <= j < |s.jobs| && (s.jobs[j].phase.Entering? || s.jobs[j].phase.Running?) ==>
          (s.jobs[j].phase.last.Some? <==> j in l.woke))
  }

  predicate Returned(p: Phase) { !p.Entering? && !p.Waiting? && !p.Running? }

  predicate OutcomesNoted(s: State, l: Log) {
    && (forall j :: j in l.outcome ==> j < |s.jobs|)
    && (forall j :: 0 <= j < |s.jobs| ==> (j in l.outcome <==> Returned(s.jobs[j].phase)))
    && (forall j :: 0 <= j < |s.jobs| ==> s.jobs[j].completed == (j in l.outcome && l.outcome[j]))
  }

  predicate EndNoted(s: State, l: Log) {
    s.cancelled == l.cancelled && l.fatal == ((s.pc.Draining? || s.pc.Stopped?) && s.pc.fatal)
  }

  /** A job's step changes that job alone, and neither its conversation nor the loop. */
  predicate OneJobMoved(s: State, t: State, j: nat) {
    && j < |s.jobs| && |t.jobs| == |s.jobs| && t.pc == s.pc && t.jobs[j].conv == s.jobs[j].conv
    && (forall i :: 0 <= i < |s.jobs| && i != j ==> t.jobs[i] == s.jobs[i])
  }

  lemma JobStepMovesOne(s: State, j: nat, a: JobAct)
    requires JobEnabled(s, j, a)
    ensures OneJobMoved(s, JobApply(s, j, a), j)
    ensures var p, q := s.jobs[j].phase, JobApply(s, j, a).jobs[j].phase;
            && (q.Entering? ==> a.Wake? && q.last.Some?) && (q.Running? ==> a.Enter? && p.Entering? && q.last == p.last)
            && (Returned(q) <==> Returned(p) || a.Return?)
            && JobApply(s, j, a).jobs[j].completed == (if a.Return? then a.ok else s.jobs[j].completed)
  {
  }

  /** The loop's steps leave the jobs alone, but for the one it spawns. */
  lemma LoopStepSpawns(s: State, a: LoopAct)
    requires LoopEnabled(s, a)
    ensures a.Spawn? ==> LoopApply(s, a).jobs == s.jobs + [Job(s.pc.convs[s.pc.i], s.pc.i < s.pc.asked, Entering(None), 0, false)]
    ensures !a.Spawn? ==> LoopApply(s, a).jobs == s.jobs
  {
  }

  lemma LoopSpawnsPolled(s: State, a: LoopAct, l: Log)
    requires LoopEnabled(s, a) && HeldOk(s) && SpawnsPolled(s, l)
    ensures SpawnsPolled(LoopApply(s, a), Noted(l, Loop(a)))
  {
    LoopStepSpawns(s, a);
    if a.Spawn? {
      assert Convs(LoopApply(s, a).jobs) == Convs(s.jobs) + [s.pc.convs[s.pc.i]];
      assert s.pc.convs[s.pc.i..] == [s.pc.convs[s.pc.i]] + s.pc.convs[s.pc.i + 1..];
    }
  }

  lemma SpawnsPolledStep(s: State, a: Action, l: Log)
    requires Enabled(s, a) && HeldOk(s) && SpawnsPolled(s, l)
    ensures SpawnsPolled(Apply(s, a), Noted(l, a))
  {
    if a.Loop? {
      LoopSpawnsPolled(s, a.act, l);
    } else if a.Do? {
      JobStepMovesOne(s, a.j, a.step);
      assert Convs(Apply(s, a).jobs) == Convs(s.jobs);
    }
  }

  lemma WakesNotedStep(s: State, a: Action, l: Log)
    requires Enabled(s, a) && WakesNoted(s, l)
    ensures WakesNoted(Apply(s, a), Noted(l, a))
  {
    if a.Loop? {
      LoopStepSpawns(s, a.act);
    } else if a.Do? {
      JobStepMovesOne(s, a.j, a.step);
    }
  }

  lemma MovedOutcomes(s: State, t: State, j: nat, a: JobAct, l: Log)
    requires OutcomesNoted(s, l) && OneJobMoved(s, t, j)
    requires Returned(t.jobs[j].phase) <==> Returned(s.jobs[j].phase) || a.Return?
    requires t.jobs[j].completed == (if a.Return? then a.ok else s.jobs[j].completed)
    ensures OutcomesNoted(t, Noted(l, Do(j, a)))
  {
  }

  lemma OutcomesNotedStep(s: State, a: Action, l: Log)
    requires Enabled(s, a) && OutcomesNoted(s, l)
    ensures OutcomesNoted(Apply(s, a), Noted(l, a))
  {
    if a.Loop? {
      LoopStepSpawns(s, a.act);
    } else if a.Do? {
      JobStepMovesOne(s, a.j, a.step);
      MovedOutcomes(s, Apply(s, a), a.j, a.step, l);
    }
  }

  lemma EndNotedStep(s: State, a: Action, l: Log)
    requires Enabled(s, a) && EndNoted(s, l)
    ensures EndNoted(Apply(s, a), Noted(l, a))
  {
  }

  ghost predicate LogOk(s: State, l: Log) {
    SpawnsPolled(s, l) && WakesNoted(s, l) && OutcomesNoted(s, l) && EndNoted(s, l)
  }

  lemma {:induction false} LogExec(s: State, acts: seq<Action>, l: Log)
    requires Inv(s) && LogOk(s, l) && Exec(s, acts).Some?
    ensures LogOk(Exec(s, acts).value, Observed(l, acts))
    decreases |acts|
  {
    if acts != [] {
      SpawnsPolledStep(s, acts[0], l);
      WakesNotedStep(s, acts[0], l);
      OutcomesNotedStep(s, acts[0], l);
      EndNotedStep(s, acts[0], l);
      InvStep(s, acts[0]);
      LogExec(Apply(s, acts[0]), acts[1..], Noted(l, acts[0]));
    }
  }

  /** In every state any interleaving reaches, the jobs are the returned ones in order,
      each under the conversation the server gave it, and between two iterations all
      of them; a job that runs reports having waited exactly if it was woken; and a
      job's outcome is what its run returned. */
  lemma JobsAreThePolled(n: nat, acts: seq<Action>, j: nat)
    requires 1 <= n && Exec(Init(n), acts).Some? && j < |Exec(Init(n), acts).value.jobs|
    ensures var s, l := Exec(Init(n), acts).value, Observed(NOTHING, acts);
            && |s.jobs| <= |l.polled| && s.jobs[j].conv == l.polled[j]
            && (s.pc.Top? || s.pc.Acquire? || s.pc.Draining? || s.pc.Stopped? ==> |s.jobs| == |l.polled|)
            && (s.jobs[j].phase.Running? ==> (s.jobs[j].phase.last.Some? <==> j in l.woke))
            && (Returned(s.jobs[j].phase) ==> j in l.outcome && s.jobs[j].completed == l.outcome[j])
  {
    Safety(n, acts);
    LogExec(Init(n), acts, NOTHING);
    var s, l := Exec(Init(n), acts).value, Observed(NOTHING, acts);
    assert Convs(s.jobs)[j] == s.jobs[j].conv;
    assert l.polled[j] == (Convs(s.jobs) + Upcoming(s.pc))[j];
  }

  /** The loop reports an unrecoverable failure exactly if it gave up for one, before
      it was cancelled. */
  lemma FatalIsReported(n: nat, acts: seq<Action>)
    requires 1 <= n && Exec(Init(n), acts).Some?
    ensures var s := Exec(Init(n), acts).value;
            s.pc.Draining? || s.pc.Stopped? ==> (s.pc.fatal <==> Observed(NOTHING, acts).fatal)
  {
    Safety(n, acts);
    LogExec(Init(n), acts, NOTHING);
  }

  /** At most one of the jobs returned for a non-zero conversation is between enter
      and leave. */
  lemma MutualExclusion(n: nat, acts: seq<Action>, i: nat, j: nat)
    requires 1 <= n && Exec(Init(n), acts).Some?
    requires i < |Exec(Init(n), acts).value.jobs| && j < |Exec(Init(n), acts).value.jobs|
    ensures var s, polled := Exec(Init(n), acts).value, Observed(NOTHING, acts).polled;
            && i < |polled| && j < |polled|
            && (polled[i] == polled[j] != 0 && Inside(s.jobs[i]) && Inside(s.jobs[j]) ==> i == j)
  {
    Safety(n, acts);
    JobsAreThePolled(n, acts, i);
    JobsAreThePolled(n, acts, j);
    var s := Exec(Init(n), acts).value;
    assert JobOk(s, i) && JobOk(s, j);
  }

  /** How many polls a cancelled loop can still make. */
  function PollsLeft(pc: Pc): nat { if pc.Acquire? || pc.More? || pc.Polling? then 1 else 0 }

  function Polls(acts: seq<Action>): nat
    decreases |acts|
  {
    if acts == [] then 0
    else (if acts[0] == Loop(PollFailed) || (acts[0].Loop? && acts[0].act.PollReturned?) then 1 else 0) + Polls(acts[1..])
  }

  /** Once cancelled, the loop polls at most once more, and only if it was already on
      its way to. */
  lemma {:induction false} CancelStopsPolling(s: State, acts: seq<Action>)
    requires s.cancelled && Exec(s, acts).Some?
    ensures Polls(acts) <= PollsLeft(s.pc)
    decreases |acts|
  {
    if acts != [] { CancelStopsPolling(Apply(s, acts[0]), acts[1..]); }
  }

  /** No wake-up is lost: the run a waiter blocks on is closed already, or is in
      the map under a job that runs, or is being closed by the mutex's holder. */
  lemma NoLostWakeup(n: nat, acts: seq<Action>, j: nat)
    requires 1 <= n && Exec(Init(n), acts).Some?
    requires j < |Exec(Init(n), acts).value.jobs|
    requires Exec(Init(n), acts).value.jobs[j].phase.Waiting?
    ensures var s := Exec(Init(n), acts).value;
            var r := s.jobs[j].phase.run;
            && r < |s.runs| && s.runs[r].owner < |s.jobs| && s.runs[r].owner != j
            && (s.runs[r].closes == 0 ==>
                  || (s.running.Keys >= {s.jobs[j].conv} && s.running[s.jobs[j].conv] == r && Inside(s.jobs[s.runs[r].owner]))
                  || s.mutex == Some(s.runs[r].owner))
  {
    Safety(n, acts);
    var s := Exec(Init(n), acts).value;
    assert JobOk(s, j);
    assert RunOk(s, s.jobs[j].phase.run);
    assert JobOk(s, s.runs[s.jobs[j].phase.run].owner);
  }

  /** A done channel is closed at most once, with `completed` already holding its
      job's outcome, and what a waiter then reads never changes again. */
  lemma ClosedOnceAndFinal(n: nat, acts: seq<Action>, a: Action, r: nat)
    requires 1 <= n && Exec(Init(n), acts).Some? && Enabled(Exec(Init(n), acts).value, a)
    requires r < |Exec(Init(n), acts).value.runs|
    ensures var s := Exec(Init(n), acts).value;
            var t := Apply(s, a);
            && s.runs[r].closes <= 1
            && (s.runs[r].closes == 1 ==>
                  && s.runs[r].marked && s.runs[r].owner < |s.jobs|
                  && s.runs[r].completed == s.jobs[s.runs[r].owner].completed
                  && r < |t.runs| && t.runs[r] == s.runs[r])
  {
    Safety(n, acts);
    var s := Exec(Init(n), acts).value;
    assert RunOk(s, r);
    if a.Do? { assert JobOk(s, a.j); }
  }

  /** What enter reports: the run last waited for is closed, belongs to another job
      returned for the same conversation, and the flag is what that job's run
      returned. */
  lemma EnterReportsTruth(n: nat, acts: seq<Action>, j: nat)
    requires 1 <= n && Exec(Init(n), acts).Some?
    requires j < |Exec(Init(n), acts).value.jobs|
    requires Exec(Init(n), acts).value.jobs[j].phase.Running?
    requires Exec(Init(n), acts).value.jobs[j].phase.last.Some?
    ensures var s, l := Exec(Init(n), acts).value, Observed(NOTHING, acts);
            var w := s.jobs[j].phase.last.value;
            && w.run < |s.runs| && s.runs[w.run].closes == 1
            && var o := s.runs[w.run].owner;
               && o < |s.jobs| && o != j && o < |l.polled| && j < |l.polled| && l.polled[o] == l.polled[j]
               && o in l.outcome && l.outcome[o] == w.completed
  {
    Safety(n, acts);
    var s := Exec(Init(n), acts).value;
    assert JobOk(s, j);
    assert RunOk(s, s.jobs[j].phase.last.value.run);
    JobsAreThePolled(n, acts, j);
    JobsAreThePolled(n, acts, s.runs[s.jobs[j].phase.last.value.run].owner);
  }

  /** Slot conservation: occupancy is what the loop and its jobs hold, never above
      n; no receive blocks; the loop asks for exactly the free slots. */
  lemma SlotConservation(n: nat, acts: seq<Action>)
    requires 1 <= n && Exec(Init(n), acts).Some?
    ensures var s := Exec(Init(n), acts).value;
            && s.occ == s.held + JobSlots(s) && s.occ <= s.n
            && ((s.pc.ReleaseAll? || s.pc.ReleaseSpare?) && s.pc.k > 0 ==> LoopEnabled(s, ReleaseOne))
            && (forall j :: 0 <= j < |s.jobs| && s.jobs[j].phase.Left? ==> JobEnabled(s, j, Finish))
            && (LoopEnabled(s, StopTaking) ==> s.held == s.n - JobSlots(s))
            && (s.pc.Spawning? && s.pc.i < |s.pc.convs| && s.pc.i < s.pc.asked ==> s.held > 0)
  {
    Safety(n, acts);
    var s := Exec(Init(n), acts).value;
    forall j | 0 <= j < |s.jobs| && s.jobs[j].phase.Left? ensures JobEnabled(s, j, Finish) {
      TotalUpdate(s.jobs, j, s.jobs[j], SlotsOf);
    }
  }

  lemma SomebodyInside(s: State)
    requires GateInv(s) && exists c :: c in s.running
    ensures exists j :: 0 <= j < |s.jobs| && Inside(s.jobs[j])
  {
    var c :| c in s.running;
    assert EntryOk(s, c);
  }

  /** SetStopped runs only after every job ended, and nothing runs after it. */
  lemma StoppedIsQuiet(n: nat, acts: seq<Action>, a: Action)
    requires 1 <= n && Exec(Init(n), acts).Some? && Exec(Init(n), acts).value.pc.Stopped?
    ensures var s := Exec(Init(n), acts).value;
            && (forall j :: 0 <= j < |s.jobs| ==> s.jobs[j].phase.Ended?)
            && s.occ == 0 && (forall c :: c !in s.running)
            && (Enabled(s, a) ==> a.Cancel?)
  {
    Safety(n, acts);
    var s := Exec(Init(n), acts).value;
    TotalBound(s.jobs, SlotsOf, 0);
    if exists c :: c in s.running { SomebodyInside(s); }
  }

  // ----- the gate as its two methods -----

  /** convGate's fields; `runs` holds every convRun ever made, so that a reference
      is an index. */
  datatype Gate = Gate(running: map<int, nat>, runs: seq<Run>)

  function GateOf(s: State): Gate { Gate(s.running, s.runs) }

  predicate GateOk(g: Gate) { forall c :: c in g.running ==> g.running[c] < |g.runs| }

  /** One turn of enter's loop for job `owner`: the new gate and the run to wait for. */
  function Entered(g: Gate, conv: int, owner: nat): (Gate, Option<nat>) {
    if conv == 0 then (g, None)
    else if conv in g.running then (g, Some(g.running[conv]))
    else (Gate(g.running[conv := |g.runs|], g.runs + [Run(conv, owner, false, false, 0)]), None)
  }

  /** leave: the entry is removed, its outcome recorded and its channel closed. */
  function LeftBy(g: Gate, conv: int, completed: bool): Gate
    requires GateOk(g)
  {
    if conv == 0 || conv !in g.running then g
    else
      var r := g.running[conv];
      Gate(g.running - {conv}, g.runs[r := g.runs[r].(marked := true, completed := completed, closes := g.runs[r].closes + 1)])
  }

  /** A turn of enter is the transition system's step: the gate changes alike, and
      its job waits for exactly the run that was found, or runs. */
  lemma EnterIsOneStep(s: State, j: nat)
    requires JobEnabled(s, j, Enter)
    ensures var (g, busy) := Entered(GateOf(s), s.jobs[j].conv, j);
            var t := EnterStep(s, j);
            && GateOf(t) == g && |t.jobs| == |s.jobs| && (forall i :: 0 <= i < |s.jobs| && i != j ==> t.jobs[i] == s.jobs[i])
            && t.jobs[j].phase == (if busy.Some? then Waiting(busy.value) else Running(s.jobs[j].phase.last))
            && (busy.None? && s.jobs[j].conv != 0 ==> g.running[s.jobs[j].conv] == t.jobs[j].run)
  {
  }

  /** leave's critical section, run by its holder without interruption, is the
      three observable steps of the transition system. */
  lemma LeaveIsThreeSteps(s: State, j: nat)
    requires Inv(s) && JobEnabled(s, j, Delete) && s.jobs[j].conv != 0
    ensures GateOk(GateOf(s)) && s.jobs[j].conv in s.running && s.running[s.jobs[j].conv] == s.jobs[j].run
    ensures JobEnabled(DeleteStep(s, j), j, Mark)
    ensures JobEnabled(MarkStep(DeleteStep(s, j), j), j, Close)
    ensures GateOf(CloseStep(MarkStep(DeleteStep(s, j), j), j)) == LeftBy(GateOf(s), s.jobs[j].conv, s.jobs[j].completed)
  {
    assert JobOk(s, j);
    assert forall c :: c in s.running ==> EntryOk(s, c);
  }

  class ConvGate {
    var running: map<int, nat>
    var runs: seq<Run>

    function Now(): Gate
      reads this
    {
      Gate(running, runs)
    }

    constructor ()
      ensures GateOk(Now()) && Now() == Gate(map[], [])
    {
      running, runs := map[], [];
    }

    method TryEnter(conv: int, owner: nat) returns (busy: Option<nat>)
      requires GateOk(Now())
      modifies this
      ensures GateOk(Now()) && (Now(), busy) == Entered(old(Now()), conv, owner)
    {
      busy := None;
      if conv == 0 { return; }
      if conv in running {
        busy := Some(running[conv]);
      } else {
        running := running[conv := |runs|];
        runs := runs + [Run(conv, owner, false, false, 0)];
      }
    }

    method Leave(conv: int, completed: bool)
      requires GateOk(Now())
      modifies this
      ensures GateOk(Now()) && Now() == LeftBy(old(Now()), conv, completed)
    {
      if conv == 0 { return; }
      if conv in running {
        var r := running[conv];
        running := running - {conv};
        runs := runs[r := runs[r].(marked := true, completed := completed)];
        runs := runs[r := runs[r].(closes := runs[r].closes + 1)];
      }
    }
  }

  // ----- progress and the shutdown drain -----

  lemma {:induction false} SomeSlotted(js: seq<Job>) returns (j: nat)
    requires Total(js, SlotsOf) > 0
    ensures j < |js| && !js[j].phase.Ended?
  {
    if SlotsOf(js[0]) > 0 {
      j := 0;
    } else {
      j := SomeSlotted(js[1..]);
      j := j + 1;
    }
  }

  /** Until the loop has stopped, something can always happen without a cancellation:
      neither the loop nor its jobs can get stuck. */
  lemma AlwaysProgress(s: State) returns (a: Action)
    requires Inv(s) && !s.pc.Stopped?
    ensures Enabled(s, a) && !a.Cancel?
  {
    match s.pc {
      case Top => a := Loop(CheckContext);
      case Acquire =>
        if s.occ < s.n {
          a := Loop(TakeSlot);
        } else {
          var j := SomeSlotted(s.jobs);
          var i, act := NoDeadlock(s, j);
          a := Do(i, act);
        }
      case More => a := Loop(if s.held < s.n && s.occ < s.n then TakeMore else StopTaking);
      case Polling => a := Loop(PollFailed);
      case ReleaseAll(k) => a := Loop(if k > 0 then ReleaseOne else Released);
      case ReleaseSpare(_, _, k) => a := Loop(if k > 0 then ReleaseOne else Released);
      case Failed => a := Loop(Retry);
      case Spawning(_, convs, i) => a := Loop(if i < |convs| then Spawn else Spawned);
      case Draining(_) =>
        if j :| 0 <= j < |s.jobs| && !s.jobs[j].phase.Ended? {
          var i, act := NoDeadlock(s, j);
          a := Do(i, act);
        } else {
          a := Loop(SetStopped);
        }
    }
  }

  /** While some job has not ended, some job can step: the gate never deadlocks. */
  lemma NoDeadlock(s: State, j: nat) returns (i: nat, a: JobAct)
    requires Inv(s) && j < |s.jobs| && !s.jobs[j].phase.Ended?
    ensures JobEnabled(s, i, a)
  {
    assert JobOk(s, j);
    TotalUpdate(s.jobs, j, s.jobs[j], SlotsOf);
    if s.mutex.Some? {
      i := s.mutex.value;
      assert JobOk(s, i);
      a := match s.jobs[i].phase case Deleted(_) => Mark case Marked(_) => Close case _ => Unlock;
    } else {
      i := j;
      match s.jobs[j].phase
      case Entering(_) => a := Enter;
      case Running(_) => a := Return(true);
      case Leaving => a := Delete;
      case Left => a := Finish;
      case Waiting(r) =>
        a := Wake;
        assert RunOk(s, r);
        if s.runs[r].closes == 0 {
          i := s.runs[r].owner;
          assert JobOk(s, i);
          a := if s.jobs[i].phase.Running? then Return(true) else Delete;
        }
    }
  }

  function OpenOf(job: Job): nat {
    if job.phase.Unlocking? || job.phase.Left? || job.phase.Ended? then 0 else 1
  }

  function RankOf(runs: seq<Run>, job: Job): nat {
    match job.phase
    case Waiting(r) => if r < |runs| && runs[r].closes > 0 then 9 else 7
    case Entering(_) => 8
    case Running(_) => 6
    case Leaving => 5
    case Deleted(_) => 4
    case Marked(_) => 3
    case Unlocking => 2
    case Left => 1
    case Ended => 0
  }

  function Ranks(s: State): nat { Total(s.jobs, (x: Job) => RankOf(s.runs, x)) }

  function Open(s: State): nat { Total(s.jobs, OpenOf) }

  /** Steps the jobs can still take before they have all ended. */
  function Measure(s: State): nat { Open(s) * (9 * |s.jobs| + 1) + Ranks(s) }

  lemma RanksMove(s: State, t: State, j: nat)
    requires j < |s.jobs| == |t.jobs| && t.jobs == s.jobs[j := t.jobs[j]]
    requires forall i :: 0 <= i < |t.jobs| ==> RankOf(t.runs, t.jobs[i]) == RankOf(s.runs, t.jobs[i])
    requires RankOf(s.runs, t.jobs[j]) < RankOf(s.runs, s.jobs[j])
    ensures Ranks(t) < Ranks(s)
  {
    TotalSame(t.jobs, (x: Job) => RankOf(t.runs, x), (x: Job) => RankOf(s.runs, x));
    TotalUpdate(s.jobs, j, t.jobs[j], (x: Job) => RankOf(s.runs, x));
  }

  lemma RanksEnter(s: State, j: nat)
    requires GateInv(s) && JobEnabled(s, j, Enter)
    ensures Ranks(EnterStep(s, j)) < Ranks(s)
  {
    var t := EnterStep(s, j);
    if s.jobs[j].conv in s.running { assert EntryOk(s, s.jobs[j].conv); }
    forall i | 0 <= i < |t.jobs| ensures RankOf(t.runs, t.jobs[i]) == RankOf(s.runs, t.jobs[i]) { assert JobOk(s, i); }
    RanksMove(s, t, j);
  }

  lemma RanksStep(s: State, j: nat, a: JobAct)
    requires GateInv(s) && JobEnabled(s, j, a) && !a.Close?
    ensures Ranks(JobApply(s, j, a)) < Ranks(s)
  {
    match a
    case Enter => RanksEnter(s, j);
    case Wake => RanksMove(s, WakeStep(s, j), j);
    case Return(ok) => RanksMove(s, ReturnStep(s, j, ok), j);
    case Delete => RanksMove(s, DeleteStep(s, j), j);
    case Mark => RanksMove(s, MarkStep(s, j), j);
    case Unlock => RanksMove(s, WithPhase(s, j, Left).(mutex := None), j);
    case Finish => RanksMove(s, FinishStep(s, j), j);
  }

  lemma Lexicographic(o: nat, o': nat, w: nat, r: nat, r': nat)
    requires (o' < o && r' < w) || (o' <= o && r' < r)
    ensures o' * w + r' < o * w + r
  {
    if o' < o {
      assert o * w == (o - 1 - o') * w + o' * w + w;
    } else {
      assert o' == o;
    }
  }

  /** No step of a job opens it again. */
  lemma OpenStep(s: State, j: nat, a: JobAct)
    requires JobEnabled(s, j, a)
    ensures var t := JobApply(s, j, a);
            && |t.jobs| == |s.jobs| && t.jobs == s.jobs[j := t.jobs[j]]
            && OpenOf(t.jobs[j]) <= OpenOf(s.jobs[j]) && (a.Close? ==> OpenOf(t.jobs[j]) < OpenOf(s.jobs[j]))
  {
  }

  lemma MeasureStep(s: State, j: nat, a: JobAct)
    requires GateInv(s) && JobEnabled(s, j, a)
    ensures Measure(JobApply(s, j, a)) < Measure(s)
  {
    var t := JobApply(s, j, a);
    OpenStep(s, j, a);
    TotalUpdate(s.jobs, j, t.jobs[j], OpenOf);
    if a.Close? {
      TotalBound(t.jobs, (x: Job) => RankOf(t.runs, x), 9);
    } else {
      RanksStep(s, j, a);
    }
    Lexicographic(Open(s), Open(t), 9 * |s.jobs| + 1, Ranks(s), Ranks(t));
  }

  lemma NothingAfterStop(s: State, acts: seq<Action>)
    requires SlotInv(s) && s.pc.Stopped? && Exec(s, acts).Some?
    requires acts == [] || !acts[0].Cancel?
    ensures acts == []
  {
  }

  /** One step of the drain: a job comes closer to its end, or the loop stops. */
  lemma DrainStep(s: State, a: Action)
    requires Inv(s) && s.pc.Draining? && Enabled(s, a) && !a.Cancel?
    ensures Inv(Apply(s, a))
    ensures if a.Do? then Apply(s, a).pc.Draining? && Measure(Apply(s, a)) < Measure(s) else Apply(s, a).pc.Stopped?
  {
    InvStep(s, a);
    if a.Do? { MeasureStep(s, a.j, a.step); }
  }

  /** Once the loop only waits for its jobs, every schedule is this short. */
  lemma {:induction false} DrainIsBounded(s: State, acts: seq<Action>)
    requires Inv(s) && s.pc.Draining? && Exec(s, acts).Some?
    requires forall i :: 0 <= i < |acts| ==> !acts[i].Cancel?
    ensures |acts| <= Measure(s) + 1
    decreases |acts|
  {
    if acts != [] {
      DrainStep(s, acts[0]);
      assert forall i :: 0 <= i < |acts[1..]| ==> acts[1..][i] == acts[i + 1];
      if acts[0].Do? {
        DrainIsBounded(Apply(s, acts[0]), acts[1..]);
      } else {
        NothingAfterStop(Apply(s, acts[0]), acts[1..]);
      }
    }
  }

  /** Shutdown always finishes: from every draining state SetStopped is reachable. */
  lemma {:induction false} DrainFinishes(s: State) returns (acts: seq<Action>)
    requires Inv(s) && s.pc.Draining?
    ensures Exec(s, acts).Some? && Exec(s, acts).value.pc == Stopped(s.pc.fatal)
    decreases Measure(s)
  {
    if j :| 0 <= j < |s.jobs| && !s.jobs[j].phase.Ended? {
      var i, a := NoDeadlock(s, j);
      InvStep(s, Do(i, a));
      MeasureStep(s, i, a);
      var rest := DrainFinishes(JobApply(s, i, a));
      acts := [Do(i, a)] + rest;
      assert acts[1..] == rest;
    } else {
      acts := [Loop(SetStopped)];
    }
  }
}
