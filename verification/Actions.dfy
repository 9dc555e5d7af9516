/** Idempotent actions: redelivered jobs, changing policy verdicts, owner decisions
    and failures between the steps of the action handlers
    (internal/agentapi/actions.go on internal/db/agent_actions.go). */
module Actions {
  import opened Wrappers

  datatype ActionID = ActionID(n: nat)

  datatype Kind = Reply | OwnerApproval | OwnerSummary

  datatype Decision = Deny | RequireApproval | Allow

  datatype Status = Pending | Approved | Rejected | Denied | Expired | Executing | Executed | DeliveryUnknown

  datatype Code = Code(text: string)

  /** `pause` says that the stored reasons name the autopilot pause. */
  datatype Row = Row(job: Option<int>, kind: Kind, decision: Decision, payload: string,
                     status: Status, code: Option<Code>, pause: bool)

  datatype NoteKind = ApprovalRequest | PauseAlert | OwnerNote

  datatype Note = Note(kind: NoteKind, body: string)

  datatype Key = Key(job: int, kind: Kind)

  /** One account's actions and notifications. `byJob` is the unique index on
      (job, action type), the key set of `notes` the one on notifications' action.
      `strayed` is no column: it records the drafts some move took off the path the
      callers of the store keep to. */
  datatype Store = Store(rows: map<ActionID, Row>, byJob: map<Key, ActionID>, notes: map<ActionID, Note>, next: nat,
                         strayed: set<ActionID>)

  predicate Terminal(s: Status) { s in {Rejected, Denied, Expired, Executed, DeliveryUnknown} }

  ghost predicate CodeTaken(st: Store, c: Code) {
    exists id :: id in st.rows && st.rows[id].code == Some(c)
  }

  function Insert(st: Store, row: Row): Store {
    var id := ActionID(st.next);
    st.(rows := st.rows[id := row], next := st.next + 1,
        byJob := if row.job.Some? then st.byJob[Key(row.job.value, row.kind) := id] else st.byJob)
  }

  /** InsertOwnerNotification: a second one for the same action is a no-op. */
  function AddNote(st: Store, id: ActionID, n: Note): Store {
    if id in st.notes then st else st.(notes := st.notes[id := n])
  }

  function ReplyStatus(d: Decision): Status {
    match d case Deny => Denied case RequireApproval => Pending case Allow => Approved
  }

  function ReplyRow(job: Option<int>, d: Decision, pause: bool, code: Code, text: string): Row {
    Row(job, Reply, d, text, ReplyStatus(d), if d == RequireApproval then Some(code) else None, pause)
  }

  function OwnerRow(job: Option<int>, kind: Kind, d: Decision, text: string): Row {
    Row(job, kind, d, text, if d == Allow then Executed else Denied, None, false)
  }

  /** A reply just stored for this call: denied, waiting for the owner or approved as
      the policy decided, with a code exactly if the owner is to be asked. */
  predicate NewReply(row: Row, job: Option<int>, d: Decision, pause: bool, text: string) {
    && row.job == job && row.kind == Reply && row.decision == d && row.payload == text && row.pause == pause
    && (row.status == Denied <==> d == Deny) && (row.status == Pending <==> d == RequireApproval)
    && (row.status == Approved <==> d == Allow) && (row.code.Some? <==> d == RequireApproval)
  }

  /** An owner-facing action just stored: done if the policy let it through. */
  predicate NewNotice(row: Row, job: Option<int>, kind: Kind, d: Decision, text: string) {
    && row.job == job && row.kind == kind && row.decision == d && row.payload == text && row.code.None?
    && row.status == if d == Allow then Executed else Denied
  }

  // ----- the approval-code retry loop -----

  const MAX_CODE_ATTEMPTS := 3

  datatype InsertError = JobGone | CodesExhausted

  class ActionStore {
    var st: Store

    /** InsertAgentAction: None when the code is taken; `live` is the gate on the
        job's status and attempt. */
    method InsertAgentAction(row: Row, live: bool) returns (r: Option<Result<ActionID, InsertError>>)
      modifies this
      ensures st == if r.Some? && r.value.Ok? && !Exists(old(st), row) then Insert(old(st), row) else old(st)
      ensures Exists(old(st), row) ==> r == Some(Ok(old(st).byJob[Key(row.job.value, row.kind)]))
      ensures !Exists(old(st), row) && row.job.Some? && !live ==> r == Some(Err(JobGone))
      ensures !Exists(old(st), row) && (row.job.None? || live) ==>
                r == if row.code.Some? && CodeTaken(old(st), row.code.value) then None else Some(Ok(ActionID(old(st).next)))
    {
      if row.job.Some? && Key(row.job.value, row.kind) in st.byJob { return Some(Ok(st.byJob[Key(row.job.value, row.kind)])); }
      if row.job.Some? && !live { return Some(Err(JobGone)); }
      if row.code.Some? && exists id :: id in st.rows && st.rows[id].code == row.code { return None; }
      var id := ActionID(st.next);
      st := Insert(st, row);
      return Some(Ok(id));
    }

    /** insertActionWithApprovalCode for a job-tied action: a fresh code for a new row, and the
        stored one, whatever it is by now, for a row that is already there. */
    method InsertActionWithApprovalCode(job: int, text: string, live: bool, codes: nat -> Code)
      returns (r: Result<(ActionID, Option<Code>), InsertError>)
      requires IndexOk(st)
      modifies this
      ensures Key(job, Reply) in old(st).byJob ==>
                var id := old(st).byJob[Key(job, Reply)];
                st == old(st) && r == Ok((id, st.rows[id].code))
      ensures Key(job, Reply) !in old(st).byJob && !live ==> st == old(st) && r == Err(JobGone)
      ensures Key(job, Reply) !in old(st).byJob && live ==>
                || (st == old(st) && r == Err(CodesExhausted) &&
                    forall i :: 0 <= i < MAX_CODE_ATTEMPTS ==> CodeTaken(old(st), codes(i)))
                || (r.Ok? && exists k :: 0 <= k < MAX_CODE_ATTEMPTS && InsertedWith(old(st), st, job, text, codes, k, r.value))
    {
      var i := 0;
      while i < MAX_CODE_ATTEMPTS
        invariant 0 <= i <= MAX_CODE_ATTEMPTS && st == old(st)
        invariant i > 0 ==> live && Key(job, Reply) !in st.byJob
        invariant forall k :: 0 <= k < i ==> CodeTaken(st, codes(k))
      {
        var row := ReplyRow(Some(job), RequireApproval, false, codes(i), text);
        var inserted := InsertAgentAction(row, live);
        if inserted.Some? {
          if inserted.value.Err? { return Err(inserted.value.error); }
          var id := inserted.value.value;
          assert !Exists(old(st), row) ==> InsertedWith(old(st), st, job, text, codes, i, (id, st.rows[id].code));
          return Ok((id, st.rows[id].code));
        }
        i := i + 1;
      }
      return Err(CodesExhausted);
    }

    /** InsertStandaloneApprovalWithNotification under the same retry loop: the action
        and its approval request are committed together or not at all. */
    method InsertStandaloneApproval(text: string, codes: nat -> Code) returns (r: Result<ActionID, InsertError>)
      requires StoreOk(st)
      modifies this
      ensures StoreOk(st) && Evolves(old(st), st)
      ensures r.Err? ==> st == old(st) && r.error == CodesExhausted && forall i :: 0 <= i < MAX_CODE_ATTEMPTS ==> CodeTaken(old(st), codes(i))
      ensures r.Ok? ==> r.value in st.rows && NewReply(st.rows[r.value], None, RequireApproval, false, text) && r.value !in old(st).rows
      ensures r.Ok? ==> r.value !in old(st).notes && st.notes == old(st).notes[r.value := Note(ApprovalRequest, text)]
    {
      var i := 0;
      while i < MAX_CODE_ATTEMPTS
        invariant 0 <= i <= MAX_CODE_ATTEMPTS && st == old(st)
        invariant forall k :: 0 <= k < i ==> CodeTaken(st, codes(k))
      {
        var row := ReplyRow(None, RequireApproval, false, codes(i), text);
        var inserted := InsertAgentAction(row, true);
        if inserted.Some? {
          var id := inserted.value.value;
          LandedOk(old(st), row);
          InsertIndexes(old(st), row);
          AddNoteOk(st, id, Note(ApprovalRequest, text));
          st := AddNote(st, id, Note(ApprovalRequest, text));
          return Ok(id);
        }
        i := i + 1;
      }
      return Err(CodesExhausted);
    }

    /** handleProposeReply, uninterrupted: insert or find the action, reload it, queue
        what the stored row calls for, and answer from the stored row. */
    method HandleProposeReply(job: Option<int>, live: bool, d: Decision, pause: bool, codes: nat -> Code, text: string, alertDue: bool)
      returns (r: Result<(ActionID, Row), InsertError>)
      requires StoreOk(st) && (pause ==> d == Deny)
      modifies this
      ensures StoreOk(st) && Evolves(old(st), st)
      ensures r.Err? ==> st == old(st)
      ensures r.Ok? ==> PhaseOk(st, Notified(r.value.0, r.value.1)) && st.rows[r.value.0] == r.value.1
      ensures r.Ok? && job.Some? && Key(job.value, Reply) in old(st).byJob ==>
                r.value.0 == old(st).byJob[Key(job.value, Reply)] && r.value.1 == old(st).rows[r.value.0]
      ensures r.Ok? && !(job.Some? && Key(job.value, Reply) in old(st).byJob) ==>
                r.value.0 !in old(st).rows && NewReply(r.value.1, job, d, pause, text)
      ensures r == Err(JobGone) <==> job.Some? && Key(job.value, Reply) !in old(st).byJob && !live
      ensures r == Err(CodesExhausted) ==> d == RequireApproval && forall i :: 0 <= i < MAX_CODE_ATTEMPTS ==> CodeTaken(old(st), codes(i))
      ensures r.Ok? ==> st.notes == Queued(old(st).notes, r.value.0, r.value.1, text, alertDue)
    {
      var inserted := StoreReply(job, live, d, pause, codes, text);
      if inserted.Err? { return Err(inserted.error); }
      var id := inserted.value.0;
      var row := st.rows[id];
      QueueFor(id, row, inserted.value.1, text, alertDue);
      return Ok((id, row));
    }

    /** The insert per verdict, and whether it queued the notification already. */
    method StoreReply(job: Option<int>, live: bool, d: Decision, pause: bool, codes: nat -> Code, text: string)
      returns (r: Result<(ActionID, bool), InsertError>)
      requires StoreOk(st) && (pause ==> d == Deny)
      modifies this
      ensures StoreOk(st) && Evolves(old(st), st)
      ensures r.Err? ==> st == old(st)
      ensures r.Ok? ==> r.value.0 in st.rows && st.rows[r.value.0].kind == Reply
      ensures r.Ok? && job.Some? && Key(job.value, Reply) in old(st).byJob ==>
                st == old(st) && r.value == (st.byJob[Key(job.value, Reply)], false)
      ensures r.Ok? && !(job.Some? && Key(job.value, Reply) in old(st).byJob) ==>
                r.value.0 !in old(st).rows && NewReply(st.rows[r.value.0], job, d, pause, text)
      ensures r == Err(JobGone) <==> job.Some? && Key(job.value, Reply) !in old(st).byJob && !live
      ensures r == Err(CodesExhausted) ==> d == RequireApproval && forall i :: 0 <= i < MAX_CODE_ATTEMPTS ==> CodeTaken(old(st), codes(i))
      ensures r.Ok? ==> st.notes == if r.value.1 then old(st).notes[r.value.0 := Note(ApprovalRequest, text)] else old(st).notes
      ensures r.Ok? && r.value.1 ==> r.value.0 !in old(st).notes && st.rows[r.value.0].status == Pending
    {
      if d == RequireApproval && job.None? {
        var a := InsertStandaloneApproval(text, codes);
        if a.Err? { return Err(a.error); }
        return Ok((a.value, true));
      }
      var a := InsertReply(job, live, d, pause, codes, text);
      if a.Err? { return Err(a.error); }
      return Ok((a.value, false));
    }

    method QueueFor(id: ActionID, row: Row, queued: bool, text: string, alertDue: bool)
      requires StoreOk(st) && id in st.rows && st.rows[id] == row && row.kind == Reply && (queued ==> id in st.notes)
      modifies this
      ensures StoreOk(st) && Evolves(old(st), st) && st.rows == old(st).rows && st.byJob == old(st).byJob
      ensures st.notes == Queued(old(st).notes, id, row, text, alertDue)
    {
      if row.status == Pending && !queued {
        AddNoteOk(st, id, Note(ApprovalRequest, text));
        st := AddNote(st, id, Note(ApprovalRequest, text));
      }
      if row.status == Denied && row.pause && alertDue {
        AddNoteOk(st, id, Note(PauseAlert, ""));
        st := AddNote(st, id, Note(PauseAlert, ""));
      }
    }

    /** The insert of a reply that is not a standalone approval. */
    method InsertReply(job: Option<int>, live: bool, d: Decision, pause: bool, codes: nat -> Code, text: string)
      returns (r: Result<ActionID, InsertError>)
      requires StoreOk(st) && (pause ==> d == Deny) && (d == RequireApproval ==> job.Some?)
      modifies this
      ensures StoreOk(st) && Evolves(old(st), st)
      ensures r.Err? ==> st == old(st)
      ensures r.Ok? ==> r.value in st.rows && st.rows[r.value].kind == Reply && st.notes == old(st).notes
      ensures r.Ok? && !(job.Some? && Key(job.value, Reply) in old(st).byJob) ==>
                r.value !in old(st).rows && NewReply(st.rows[r.value], job, d, pause, text)
      ensures r == Err(JobGone) <==> job.Some? && Key(job.value, Reply) !in old(st).byJob && !live
      ensures r == Err(CodesExhausted) ==> d == RequireApproval && forall i :: 0 <= i < MAX_CODE_ATTEMPTS ==> CodeTaken(old(st), codes(i))
      ensures job.Some? && Key(job.value, Reply) in old(st).byJob ==> st == old(st) && r == Ok(st.byJob[Key(job.value, Reply)])
    {
      if d == RequireApproval {
        var a := InsertActionWithApprovalCode(job.value, text, live, codes);
        if a.Err? { return Err(a.error); }
        if Key(job.value, Reply) !in old(st).byJob {
          LandedOk(old(st), ReplyRow(job, d, false, a.value.1.value, text));
        }
        return Ok(a.value.0);
      }
      var row := ReplyRow(job, d, pause, codes(0), text);
      var a := InsertAgentAction(row, live);
      if a.value.Err? { return Err(a.value.error); }
      LandedOk(old(st), row);
      return Ok(a.value.value);
    }
  }

  /** The notifications once a handler has queued what its row calls for: a request for
      a waiting draft, an alert that is due for one denied for the pause, or nothing;
      never a second one for the same action. */
  function Queued(notes: map<ActionID, Note>, id: ActionID, row: Row, text: string, alertDue: bool): map<ActionID, Note> {
    if id in notes then notes
    else if row.status == Pending then notes[id := Note(ApprovalRequest, text)]
    else if row.status == Denied && row.pause && alertDue then notes[id := Note(PauseAlert, "")]
    else notes
  }

  predicate Exists(st: Store, row: Row) { row.job.Some? && Key(row.job.value, row.kind) in st.byJob }

  /** The new row has the first code that was free. */
  ghost predicate InsertedWith(st: Store, st': Store, job: int, text: string, codes: nat -> Code, k: nat, r: (ActionID, Option<Code>)) {
    && !CodeTaken(st, codes(k)) && (forall i :: 0 <= i < k ==> CodeTaken(st, codes(i)))
    && st' == Insert(st, ReplyRow(Some(job), RequireApproval, false, codes(k), text))
    && r == (ActionID(st.next), Some(codes(k)))
  }

  // ----- every interleaving of handlers, owner decisions and sweeps -----

  datatype Call = Call(n: int)

  /** Where a handler is: after its insert, after reloading the row, after queueing
      what it must. `queued`: the insert already queued the notification. */
  datatype Phase =
    | Inserted(id: ActionID, queued: bool)
    | Reloaded(id: ActionID, queued: bool, row: Row)
    | Notified(id: ActionID, row: Row)

  /** `replies` are the 200 responses: the reloaded row's decision, status and code. */
  datatype World = World(st: Store, calls: map<Call, Phase>, replies: map<Call, Phase>)

  datatype Step =
    | Propose(call: Call, job: Option<int>, live: bool, decision: Decision, pause: bool, code: Code, text: string)
    | Inform(call: Call, job: Option<int>, live: bool, kind: Kind, decision: Decision, text: string)
    | Reload(call: Call)
    | QueueApproval(call: Call, text: string)
    | QueueAlert(call: Call)
    | QueueOwnerNote(call: Call)
    | NothingToQueue(call: Call)  // also an alert that is throttled or fails
    | Respond(call: Call)
    | Fail(call: Call)  // a failed step: an error response, or a lost process
    | Move(id: ActionID, to: Status, pause: bool)

  predicate AllowedMove(a: Status, b: Status) {
    match a
    case Pending => b in {Approved, Rejected, Denied, Expired}
    case Approved => b in {Executing, Denied}
    case Executing => b in {Executed, Denied, DeliveryUnknown}
    case DeliveryUnknown => b == Executed  // the echo of the send proves delivery
    case _ => false
  }

  function Moved(row: Row, to: Status, pause: bool): Row {
    row.(status := to, code := if Terminal(to) then None else row.code, pause := pause)
  }

  predicate IsReloaded(w: World, call: Call) { call in w.calls && w.calls[call].Reloaded? }

  predicate MoveEnabled(st: Store, id: ActionID, to: Status, pause: bool) {
    id in st.rows && AllowedMove(st.rows[id].status, to) && (pause ==> to == Denied)
  }

  /** Off the path: a waiting draft is approved though no approval request told the
      owner its code, or denied with the pause as the reason. No caller of the store
      does the second, and the first takes a guessed code. */
  predicate Strays(st: Store, id: ActionID, to: Status, pause: bool)
    requires id in st.rows
  {
    && st.rows[id].status == Pending
    && ((to == Approved && !(id in st.notes && st.notes[id].kind == ApprovalRequest)) || (to == Denied && pause))
  }

  function Move(st: Store, id: ActionID, to: Status, pause: bool): Store
    requires id in st.rows
  {
    st.(rows := st.rows[id := Moved(st.rows[id], to, pause)],
        strayed := if Strays(st, id, to, pause) then st.strayed + {id} else st.strayed)
  }

  ghost predicate Enabled(w: World, s: Step) {
    match s
    case Propose(call, job, live, d, pause, code, _) =>
      && call !in w.calls && call !in w.replies && (pause ==> d == Deny)
      && (Exists(w.st, ReplyRow(job, d, pause, code, "")) || ((job.Some? ==> live) && (d == RequireApproval ==> !CodeTaken(w.st, code))))
    case Inform(call, job, live, kind, d, _) =>
      && call !in w.calls && call !in w.replies && kind != Reply
      && (Exists(w.st, OwnerRow(job, kind, d, "")) || (job.Some? ==> live))
    case Reload(call) => call in w.calls && w.calls[call].Inserted? && w.calls[call].id in w.st.rows
    case QueueApproval(call, _) =>
      IsReloaded(w, call) && w.calls[call].row.kind == Reply && w.calls[call].row.status == Pending && !w.calls[call].queued
    case QueueAlert(call) =>
      IsReloaded(w, call) && w.calls[call].row.kind == Reply && w.calls[call].row.status == Denied && w.calls[call].row.pause
    case QueueOwnerNote(call) => IsReloaded(w, call) && w.calls[call].row.kind != Reply && w.calls[call].row.status == Executed
    case NothingToQueue(call) =>
      && IsReloaded(w, call)
      && if w.calls[call].row.kind == Reply then w.calls[call].queued || w.calls[call].row.status != Pending
         else w.calls[call].row.status == Denied
    case Respond(call) => call in w.calls && w.calls[call].Notified?
    case Fail(call) => call in w.calls
    case Move(id, to, pause) => MoveEnabled(w.st, id, to, pause)
  }

  /** The insert of a handler, or the row that is already there. */
  function Landed(st: Store, row: Row): (r: (Store, ActionID)) {
    if Exists(st, row) then (st, st.byJob[Key(row.job.value, row.kind)]) else (Insert(st, row), ActionID(st.next))
  }

  function Queue(w: World, call: Call, n: Note): World
    requires IsReloaded(w, call)
  {
    var p := w.calls[call];
    w.(st := AddNote(w.st, p.id, n), calls := w.calls[call := Notified(p.id, p.row)])
  }

  function Apply(w: World, s: Step): World
    requires Enabled(w, s)
  {
    match s
    case Propose(call, job, _, d, pause, code, text) =>
      var (st, id) := Landed(w.st, ReplyRow(job, d, pause, code, text));
      var alone := job.None? && d == RequireApproval;
      w.(st := if alone then AddNote(st, id, Note(ApprovalRequest, text)) else st,
         calls := w.calls[call := Inserted(id, alone)])
    case Inform(call, job, _, kind, d, text) =>
      var (st, id) := Landed(w.st, OwnerRow(job, kind, d, text));
      w.(st := st, calls := w.calls[call := Inserted(id, false)])
    case Reload(call) =>
      var p := w.calls[call];
      w.(calls := w.calls[call := Reloaded(p.id, p.queued, w.st.rows[p.id])])
    case QueueApproval(call, text) => Queue(w, call, Note(ApprovalRequest, text))
    case QueueAlert(call) => Queue(w, call, Note(PauseAlert, ""))
    case QueueOwnerNote(call) => Queue(w, call, Note(OwnerNote, w.calls[call].row.payload))
    case NothingToQueue(call) => w.(calls := w.calls[call := Notified(w.calls[call].id, w.calls[call].row)])
    case Respond(call) => w.(calls := w.calls - {call}, replies := w.replies[call := w.calls[call]])
    case Fail(call) => w.(calls := w.calls - {call})
    case Move(id, to, pause) => w.(st := Move(w.st, id, to, pause))
  }

  ghost predicate Linked(ws: seq<World>, steps: seq<Step>, i: nat)
    requires |ws| == |steps| + 1 && i < |steps|
  {
    Enabled(ws[i], steps[i]) && ws[i + 1] == Apply(ws[i], steps[i])
  }

  ghost predicate IsRun(ws: seq<World>, steps: seq<Step>) {
    |ws| == |steps| + 1 && forall i: nat :: i < |steps| ==> Linked(ws, steps, i)
  }

  lemma RunAt(ws: seq<World>, steps: seq<Step>, i: nat)
    requires IsRun(ws, steps) && i < |steps|
    ensures Enabled(ws[i], steps[i]) && ws[i + 1] == Apply(ws[i], steps[i])
  {
    assert Linked(ws, steps, i);
  }

  const START := World(Store(map[], map[], map[], 0, {}), map[], map[])

  // ----- invariants -----

  /** The unique index on (job, action type). */
  ghost predicate IndexOk(st: Store) {
    && (forall id :: id in st.rows ==> id.n < st.next)
    && (forall k :: k in st.byJob ==> st.byJob[k] in st.rows && st.rows[st.byJob[k]].job == Some(k.job) && st.rows[st.byJob[k]].kind == k.kind)
    && (forall id :: id in st.rows && st.rows[id].job.Some? ==>
          Key(st.rows[id].job.value, st.rows[id].kind) in st.byJob && st.byJob[Key(st.rows[id].job.value, st.rows[id].kind)] == id)
    && (forall id :: id in st.notes ==> id in st.rows)
  }

  ghost predicate CodesOk(st: Store) {
    forall a, b :: a in st.rows && b in st.rows && st.rows[a].code.Some? && st.rows[a].code == st.rows[b].code ==> a == b
  }

  predicate RowOk(row: Row) {
    && (row.status == Pending ==> row.kind == Reply && row.decision == RequireApproval && row.code.Some? && !row.pause)
    && (Terminal(row.status) ==> row.code.None?)
    && (row.kind != Reply ==> row.status == if row.decision == Allow then Executed else Denied)
    && (row.kind == Reply && row.decision == Deny ==> row.status == Denied)
    && (row.kind == Reply && row.decision == Allow ==> row.status !in {Pending, Rejected, Expired})
  }

  /** A draft that was approved, and maybe denied for the pause since. */
  predicate PastOwner(row: Row) {
    && row.kind == Reply && row.decision == RequireApproval
    && (row.status in {Approved, Executing} || (row.status == Denied && row.pause))
  }

  predicate NoteFits(row: Row, n: Note, strayed: bool) {
    && (row.kind == Reply && row.decision == RequireApproval ==> n.kind == ApprovalRequest || strayed)
    && (row.kind != Reply ==> n == Note(OwnerNote, row.payload))
  }

  ghost predicate RowsOk(st: Store) {
    forall id :: id in st.rows ==>
      && RowOk(st.rows[id]) && (PastOwner(st.rows[id]) ==> id in st.notes || id in st.strayed)
      && (id in st.notes ==> NoteFits(st.rows[id], st.notes[id], id in st.strayed))
  }

  ghost predicate StoreOk(st: Store) { IndexOk(st) && CodesOk(st) && RowsOk(st) }

  /** The same action: all but its progress. */
  predicate SameAction(a: Row, b: Row) {
    a.job == b.job && a.kind == b.kind && a.decision == b.decision && a.payload == b.payload
  }

  /** What a handler knows of its row. */
  ghost predicate PhaseOk(st: Store, p: Phase) {
    && p.id in st.rows
    && (!p.Inserted? ==> SameAction(p.row, st.rows[p.id]) && RowOk(p.row) && (PastOwner(p.row) ==> p.id in st.notes || p.id in st.strayed))
    && (!p.Notified? && p.queued ==> p.id in st.notes)
    && (p.Notified? && (p.row.status == Pending || (p.row.kind != Reply && p.row.status == Executed)) ==> p.id in st.notes)
  }

  ghost predicate Inv(w: World) {
    && StoreOk(w.st)
    && (forall c :: c in w.calls ==> PhaseOk(w.st, w.calls[c]))
    && (forall c :: c in w.replies ==> PhaseOk(w.st, w.replies[c]) && w.replies[c].Notified?)
  }

  /** How the store changes: rows keep their action, notifications stay as queued. */
  ghost predicate Evolves(a: Store, b: Store) {
    && (forall id :: id in a.rows ==> id in b.rows && SameAction(a.rows[id], b.rows[id]))
    && (forall id :: id in a.notes ==> id in b.notes && b.notes[id] == a.notes[id])
    && a.strayed <= b.strayed
  }

  lemma PhaseKept(a: Store, b: Store, p: Phase)
    requires PhaseOk(a, p) && Evolves(a, b)
    ensures PhaseOk(b, p)
  {
  }

  lemma InsertIndexes(st: Store, row: Row)
    requires IndexOk(st) && !Exists(st, row)
    ensures IndexOk(Insert(st, row))
    ensures Evolves(st, Insert(st, row)) && ActionID(st.next) !in st.notes && ActionID(st.next) !in st.rows
  {
  }

  lemma InsertKeepsCodes(st: Store, row: Row)
    requires IndexOk(st) && CodesOk(st) && (row.code.Some? ==> !CodeTaken(st, row.code.value))
    ensures CodesOk(Insert(st, row))
  {
    assert forall b :: b in st.rows && row.code.Some? ==> st.rows[b].code != Some(row.code.value);
  }

  lemma LandedOk(st: Store, row: Row)
    requires StoreOk(st) && RowOk(row) && !PastOwner(row)
    requires !Exists(st, row) && row.code.Some? ==> !CodeTaken(st, row.code.value)
    ensures var (st', id) := Landed(st, row);
            && StoreOk(st') && Evolves(st, st') && id in st'.rows && (row.job.None? ==> st'.rows[id] == row)
  {
    if !Exists(st, row) {
      InsertIndexes(st, row);
      InsertKeepsCodes(st, row);
    }
  }

  lemma AddNoteOk(st: Store, id: ActionID, n: Note)
    requires StoreOk(st) && id in st.rows && (id !in st.notes ==> NoteFits(st.rows[id], n, id in st.strayed))
    ensures StoreOk(AddNote(st, id, n)) && Evolves(st, AddNote(st, id, n)) && id in AddNote(st, id, n).notes
  {
  }

  lemma MovedRowOk(st: Store, id: ActionID, to: Status, pause: bool)
    requires RowsOk(st) && MoveEnabled(st, id, to, pause)
    ensures var row, strayed := Moved(st.rows[id], to, pause), id in Move(st, id, to, pause).strayed;
            && SameAction(st.rows[id], row) && RowOk(row) && (PastOwner(row) ==> id in st.notes || strayed)
            && (row.code.None? || row.code == st.rows[id].code)
            && (id in st.notes ==> NoteFits(row, st.notes[id], strayed))
  {
  }

  lemma ReplaceIndexes(st: Store, id: ActionID, row: Row, strayed: set<ActionID>)
    requires IndexOk(st) && id in st.rows && SameAction(st.rows[id], row) && st.strayed <= strayed
    ensures var st' := st.(rows := st.rows[id := row], strayed := strayed); IndexOk(st') && Evolves(st, st')
  {
  }

  lemma ReplaceKeepsCodes(st: Store, id: ActionID, row: Row, strayed: set<ActionID>)
    requires CodesOk(st) && id in st.rows && (row.code.None? || row.code == st.rows[id].code)
    ensures CodesOk(st.(rows := st.rows[id := row], strayed := strayed))
  {
  }

  lemma MoveOk(st: Store, id: ActionID, to: Status, pause: bool)
    requires StoreOk(st) && MoveEnabled(st, id, to, pause)
    ensures StoreOk(Move(st, id, to, pause)) && Evolves(st, Move(st, id, to, pause))
  {
    var row, strayed := Moved(st.rows[id], to, pause), Move(st, id, to, pause).strayed;
    MovedRowOk(st, id, to, pause);
    ReplaceIndexes(st, id, row, strayed);
    ReplaceKeepsCodes(st, id, row, strayed);
  }

  /** A step keeps the store sound, only lets it evolve, and leaves its own call with
      knowledge that is true. */
  ghost predicate StepOk(w: World, s: Step)
    requires Enabled(w, s)
  {
    var w' := Apply(w, s);
    && StoreOk(w'.st) && Evolves(w.st, w'.st)
    && (!s.Move? && s.call in w'.calls ==> PhaseOk(w'.st, w'.calls[s.call]))
  }

  lemma ProposeOk(w: World, s: Step)
    requires Inv(w) && Enabled(w, s) && s.Propose?
    ensures StepOk(w, s)
  {
    var row := ReplyRow(s.job, s.decision, s.pause, s.code, s.text);
    assert Exists(w.st, row) == Exists(w.st, ReplyRow(s.job, s.decision, s.pause, s.code, ""));
    LandedOk(w.st, row);
    var (st, id) := Landed(w.st, row);
    if s.job.None? && s.decision == RequireApproval { AddNoteOk(st, id, Note(ApprovalRequest, s.text)); }
  }

  lemma InformOk(w: World, s: Step)
    requires Inv(w) && Enabled(w, s) && s.Inform?
    ensures StepOk(w, s)
  {
    LandedOk(w.st, OwnerRow(s.job, s.kind, s.decision, s.text));
  }

  /** Queueing: the note that lands on the action, new or old, is the right one. In
      particular a pause alert takes the place of an approval request only for a
      draft that strayed. */
  lemma QueueOk(w: World, call: Call, n: Note)
    requires Inv(w) && IsReloaded(w, call)
    requires var row := w.calls[call].row;
             || (n.kind == ApprovalRequest && row.kind == Reply)
             || (n.kind == PauseAlert && row.kind == Reply && row.status == Denied && row.pause)
             || (n == Note(OwnerNote, row.payload) && row.kind != Reply)
    ensures StoreOk(Queue(w, call, n).st) && Evolves(w.st, Queue(w, call, n).st)
    ensures PhaseOk(Queue(w, call, n).st, Queue(w, call, n).calls[call])
  {
    AddNoteOk(w.st, w.calls[call].id, n);
  }

  lemma QueueStepOk(w: World, s: Step)
    requires Inv(w) && Enabled(w, s) && (s.QueueApproval? || s.QueueAlert? || s.QueueOwnerNote?)
    ensures StepOk(w, s)
  {
    if s.QueueApproval? {
      QueueOk(w, s.call, Note(ApprovalRequest, s.text));
    } else if s.QueueAlert? {
      QueueOk(w, s.call, Note(PauseAlert, ""));
    } else {
      QueueOk(w, s.call, Note(OwnerNote, w.calls[s.call].row.payload));
    }
  }

  lemma MoveStepOk(w: World, s: Step)
    requires Inv(w) && Enabled(w, s) && s.Move?
    ensures StepOk(w, s)
  {
    MoveOk(w.st, s.id, s.to, s.pause);
  }

  lemma QuietOk(w: World, s: Step)
    requires Inv(w) && Enabled(w, s) && (s.Reload? || s.NothingToQueue? || s.Respond? || s.Fail?)
    ensures StepOk(w, s)
  {
    assert Apply(w, s).st == w.st;
  }

  lemma StoreStep(w: World, s: Step)
    requires Inv(w) && Enabled(w, s)
    ensures StepOk(w, s)
  {
    if s.Propose? {
      ProposeOk(w, s);
    } else if s.Inform? {
      InformOk(w, s);
    } else if s.Move? {
      MoveStepOk(w, s);
    } else if s.QueueApproval? || s.QueueAlert? || s.QueueOwnerNote? {
      QueueStepOk(w, s);
    } else {
      QuietOk(w, s);
    }
  }

  lemma OthersStay(w: World, s: Step, c: Call)
    requires Enabled(w, s) && (s.Move? || c != s.call)
    ensures c in Apply(w, s).calls <==> c in w.calls
    ensures c in w.calls ==> Apply(w, s).calls[c] == w.calls[c]
    ensures c in Apply(w, s).replies <==> c in w.replies
    ensures c in w.replies ==> Apply(w, s).replies[c] == w.replies[c]
  {
  }

  lemma OwnReply(w: World, s: Step)
    requires Enabled(w, s) && !s.Move? && s.call in Apply(w, s).replies
    ensures (s.call in w.replies && Apply(w, s).replies[s.call] == w.replies[s.call])
         || (s.call in w.calls && w.calls[s.call].Notified? && Apply(w, s).replies[s.call] == w.calls[s.call])
  {
  }

  lemma InvStep(w: World, s: Step)
    requires Inv(w) && Enabled(w, s)
    ensures Inv(Apply(w, s)) && Evolves(w.st, Apply(w, s).st)
  {
    var w' := Apply(w, s);
    StoreStep(w, s);
    forall c | c in w'.calls ensures PhaseOk(w'.st, w'.calls[c]) {
      if s.Move? || c != s.call {
        OthersStay(w, s, c);
        PhaseKept(w.st, w'.st, w.calls[c]);
      }
    }
    forall c | c in w'.replies ensures PhaseOk(w'.st, w'.replies[c]) && w'.replies[c].Notified? {
      if s.Move? || c != s.call { OthersStay(w, s, c); } else { OwnReply(w, s); }
      if c in w.replies && w'.replies[c] == w.replies[c] {
        PhaseKept(w.st, w'.st, w.replies[c]);
      } else {
        PhaseKept(w.st, w'.st, w.calls[c]);
      }
    }
  }

  // ----- every run -----

  lemma {:induction false} InvAlways(ws: seq<World>, steps: seq<Step>, i: nat)
    requires IsRun(ws, steps) && ws[0] == START && i < |ws|
    ensures Inv(ws[i])
  {
    if i > 0 {
      InvAlways(ws, steps, i - 1);
      RunAt(ws, steps, i - 1);
      InvStep(ws[i - 1], steps[i - 1]);
    }
  }

  lemma RunEvolves(ws: seq<World>, steps: seq<Step>, i: nat)
    requires IsRun(ws, steps) && ws[0] == START && i < |steps|
    ensures Evolves(ws[i].st, ws[i + 1].st)
  {
    InvAlways(ws, steps, i);
    RunAt(ws, steps, i);
    InvStep(ws[i], steps[i]);
  }

  lemma EvolvesTransitive(a: Store, b: Store, c: Store)
    requires Evolves(a, b) && Evolves(b, c)
    ensures Evolves(a, c)
  {
  }

  /** An action, once stored, keeps its job, type, decision and payload, whatever
      later proposals say, and a queued notification stays as it is. */
  lemma {:induction false} ActionsAreImmutable(ws: seq<World>, steps: seq<Step>, i: nat, j: nat)
    requires IsRun(ws, steps) && ws[0] == START && i <= j < |ws|
    ensures Evolves(ws[i].st, ws[j].st)
  {
    if i < j {
      ActionsAreImmutable(ws, steps, i, j - 1);
      RunEvolves(ws, steps, j - 1);
      EvolvesTransitive(ws[i].st, ws[j - 1].st, ws[j].st);
    }
  }

  /** Each job has at most one action of a type, whenever it is looked for. */
  lemma OneActionPerJob(ws: seq<World>, steps: seq<Step>, i: nat, j: nat, a: ActionID, b: ActionID)
    requires IsRun(ws, steps) && ws[0] == START && i <= j < |ws| && a in ws[i].st.rows && b in ws[j].st.rows
    requires ws[i].st.rows[a].job.Some? && SameKey(ws[i].st.rows[a], ws[j].st.rows[b])
    ensures a == b && ws[i].st.rows[a].decision == ws[j].st.rows[b].decision
  {
    ActionsAreImmutable(ws, steps, i, j);
    InvAlways(ws, steps, j);
    var key := Key(ws[j].st.rows[b].job.value, ws[j].st.rows[b].kind);
    assert ws[j].st.byJob[key] == b;
    assert SameAction(ws[i].st.rows[a], ws[j].st.rows[a]);
    assert ws[j].st.byJob[key] == a;
  }

  predicate SameKey(a: Row, b: Row) { a.job == b.job && a.kind == b.kind }

  /** What a proposal stores, if its job has no reply yet. */
  lemma ProposalStores(w: World, s: Step)
    requires Inv(w) && Enabled(w, s) && s.Propose? && (s.job.None? || Key(s.job.value, Reply) !in w.st.byJob)
    ensures var id, st := ActionID(w.st.next), Apply(w, s).st;
            && id !in w.st.rows && id in st.rows && NewReply(st.rows[id], s.job, s.decision, s.pause, s.text)
            && (s.job.Some? ==> Key(s.job.value, Reply) in st.byJob && st.byJob[Key(s.job.value, Reply)] == id)
            && Apply(w, s).calls[s.call].id == id
  {
  }

  /** A redelivered proposal changes nothing: its handler goes on with the stored row. */
  lemma RedeliveryFinds(w: World, s: Step)
    requires Inv(w) && Enabled(w, s) && s.Propose? && s.job.Some? && Key(s.job.value, Reply) in w.st.byJob
    ensures Apply(w, s).st == w.st && Apply(w, s).calls[s.call] == Inserted(w.st.byJob[Key(s.job.value, Reply)], false)
  {
  }

  lemma NoticeStores(w: World, s: Step)
    requires Inv(w) && Enabled(w, s) && s.Inform? && (s.job.None? || Key(s.job.value, s.kind) !in w.st.byJob)
    ensures var id, st := ActionID(w.st.next), Apply(w, s).st;
            && id !in w.st.rows && id in st.rows && NewNotice(st.rows[id], s.job, s.kind, s.decision, s.text)
            && Apply(w, s).calls[s.call].id == id
  {
  }

  /** A reply the policy denied is denied for good: it is never approved, nor sent. One
      it allowed is never put to the owner. */
  lemma RepliesFollowTheirDecision(ws: seq<World>, steps: seq<Step>, j: nat, id: ActionID)
    requires IsRun(ws, steps) && ws[0] == START && j < |ws| && id in ws[j].st.rows && ws[j].st.rows[id].kind == Reply
    ensures var row := ws[j].st.rows[id];
            && (row.decision == Deny ==> row.status == Denied)
            && (row.decision == Allow ==> row.status in {Approved, Executing, Executed, Denied, DeliveryUnknown})
            && (row.status == Pending ==> row.decision == RequireApproval)
  {
    InvAlways(ws, steps, j);
  }

  /** A stored row changes only by a move of its own. */
  lemma RowsChangeByMoves(w: World, s: Step, id: ActionID)
    requires IndexOk(w.st) && Enabled(w, s) && id in w.st.rows && !(s.Move? && s.id == id)
    ensures id in Apply(w, s).st.rows && Apply(w, s).st.rows[id] == w.st.rows[id]
  {
  }

  lemma FinalAt(ws: seq<World>, steps: seq<Step>, n: nat, id: ActionID)
    requires IsRun(ws, steps) && ws[0] == START && n < |steps| && id in ws[n].st.rows
    requires ws[n].st.rows[id].status in {Rejected, Denied, Expired, Executed}
    ensures id in ws[n + 1].st.rows && ws[n + 1].st.rows[id] == ws[n].st.rows[id]
  {
    InvAlways(ws, steps, n);
    RunAt(ws, steps, n);
    RowsChangeByMoves(ws[n], steps[n], id);
  }

  /** An end state is final, but for a delivery that is proven later. */
  lemma {:induction false} EndsAreFinal(ws: seq<World>, steps: seq<Step>, i: nat, j: nat, id: ActionID)
    requires IsRun(ws, steps) && ws[0] == START && i <= j < |ws| && id in ws[i].st.rows
    requires ws[i].st.rows[id].status in {Rejected, Denied, Expired, Executed}
    ensures id in ws[j].st.rows && ws[j].st.rows[id] == ws[i].st.rows[id]
  {
    if i < j {
      EndsAreFinal(ws, steps, i, j - 1, id);
      FinalAt(ws, steps, j - 1, id);
    }
  }

  /** A code lives as long as its draft: it stays while the draft is open and is gone
      once it has ended. */
  lemma {:induction false} CodesEndWithTheirDraft(ws: seq<World>, steps: seq<Step>, i: nat, j: nat, id: ActionID)
    requires IsRun(ws, steps) && ws[0] == START && i <= j < |ws| && id in ws[i].st.rows
    ensures id in ws[j].st.rows
    ensures ws[j].st.rows[id].code == if Terminal(ws[j].st.rows[id].status) then None else ws[i].st.rows[id].code
  {
    if i == j {
      InvAlways(ws, steps, j);
    } else {
      CodesEndWithTheirDraft(ws, steps, i, j - 1, id);
      InvAlways(ws, steps, j - 1);
      RunAt(ws, steps, j - 1);
      CodeStep(ws[j - 1], steps[j - 1], id);
    }
  }

  lemma CodeStep(w: World, s: Step, id: ActionID)
    requires Inv(w) && Enabled(w, s) && id in w.st.rows
    ensures id in Apply(w, s).st.rows
    ensures var row, row' := w.st.rows[id], Apply(w, s).st.rows[id];
            row'.code == (if Terminal(row'.status) then None else row.code) && (Terminal(row.status) ==> Terminal(row'.status))
  {
    if !(s.Move? && s.id == id) { RowsChangeByMoves(w, s, id); }
  }

  /** What a reply came from, step by step back from its being sent. */
  predicate Precedes(before: Row, now: Row) {
    && before.kind == Reply && before.decision == now.decision && before.payload == now.payload
    && (now.status == Approved ==> before.status == Pending)
    && (now.status == Executing ==> before.status == Approved)
    && (now.status == DeliveryUnknown ==> before.status == Executing)
    && (now.status == Executed ==> before.status == Executing || before.status == DeliveryUnknown)
  }

  /** Past the start: approved by the owner, being sent, or sent. */
  predicate UnderWay(row: Row) {
    row.kind == Reply && (row.status in {Executing, Executed, DeliveryUnknown} || (row.status == Approved && row.decision == RequireApproval))
  }

  lemma NotUnderWayAtFirst(w: World, s: Step, id: ActionID)
    requires Inv(w) && Enabled(w, s) && id !in w.st.rows && id in Apply(w, s).st.rows
    ensures !UnderWay(Apply(w, s).st.rows[id])
  {
    if s.Propose? {
      FirstRow(w.st, ReplyRow(s.job, s.decision, s.pause, s.code, s.text), id);
    } else if s.Inform? {
      FirstRow(w.st, OwnerRow(s.job, s.kind, s.decision, s.text), id);
    }
  }

  lemma FirstRow(st: Store, row: Row, id: ActionID)
    requires id !in st.rows && id in Landed(st, row).0.rows
    ensures Landed(st, row).0.rows[id] == row
  {
  }

  lemma UnderWayStep(w: World, s: Step, id: ActionID)
    requires Inv(w) && Enabled(w, s) && id in w.st.rows && id in Apply(w, s).st.rows && UnderWay(Apply(w, s).st.rows[id])
    ensures Apply(w, s).st.rows[id] == w.st.rows[id] || Precedes(w.st.rows[id], Apply(w, s).st.rows[id])
  {
    if !(s.Move? && s.id == id) { RowsChangeByMoves(w, s, id); }
  }

  lemma {:induction false} CameFrom(ws: seq<World>, steps: seq<Step>, j: nat, id: ActionID) returns (i: nat)
    requires IsRun(ws, steps) && ws[0] == START && j < |ws| && id in ws[j].st.rows && UnderWay(ws[j].st.rows[id])
    ensures i < j && id in ws[i].st.rows && Precedes(ws[i].st.rows[id], ws[j].st.rows[id])
  {
    InvAlways(ws, steps, j - 1);
    RunAt(ws, steps, j - 1);
    if id !in ws[j - 1].st.rows { NotUnderWayAtFirst(ws[j - 1], steps[j - 1], id); }
    UnderWayStep(ws[j - 1], steps[j - 1], id);
    i := j - 1;
    if ws[j].st.rows[id] == ws[j - 1].st.rows[id] { i := CameFrom(ws, steps, j - 1, id); }
  }

  /** The action was, at some earlier point, a reply with this status. */
  predicate Was(ws: seq<World>, i: nat, id: ActionID, status: Status) {
    i < |ws| && id in ws[i].st.rows && ws[i].st.rows[id].kind == Reply && ws[i].st.rows[id].status == status
  }

  /** A reply that was sent, or may have been, was approved before and then claimed
      for sending; and where the policy asks for the owner, it waited for the owner
      before that. */
  lemma SentWasApproved(ws: seq<World>, steps: seq<Step>, j: nat, id: ActionID) returns (p: nat, a: nat, e: nat)
    requires IsRun(ws, steps) && ws[0] == START && j < |ws| && id in ws[j].st.rows
    requires ws[j].st.rows[id].kind == Reply && ws[j].st.rows[id].status in {Executed, DeliveryUnknown}
    ensures a < e < j && Was(ws, a, id, Approved) && Was(ws, e, id, Executing)
    ensures ws[j].st.rows[id].decision != Deny
    ensures ws[j].st.rows[id].decision == RequireApproval ==> p < a && Was(ws, p, id, Pending)
  {
    e := CameFrom(ws, steps, j, id);
    if ws[e].st.rows[id].status == DeliveryUnknown { e := CameFrom(ws, steps, e, id); }
    a := CameFrom(ws, steps, e, id);
    p := 0;
    if ws[j].st.rows[id].decision == RequireApproval { p := CameFrom(ws, steps, a, id); }
    RepliesFollowTheirDecision(ws, steps, j, id);
  }

  /** The row of the action was exactly this at some point up to the j-th world. */
  ghost predicate Seen(ws: seq<World>, j: nat, id: ActionID, row: Row) {
    exists i :: 0 <= i <= j && i < |ws| && id in ws[i].st.rows && ws[i].st.rows[id] == row
  }

  lemma SeenStep(w: World, s: Step, c: Call, p: Phase)
    requires Enabled(w, s)
    requires (c in Apply(w, s).calls && Apply(w, s).calls[c] == p) || (c in Apply(w, s).replies && Apply(w, s).replies[c] == p)
    requires !p.Inserted?
    ensures || (p.id in w.st.rows && w.st.rows[p.id] == p.row)
            || (c in w.calls && !w.calls[c].Inserted? && w.calls[c].id == p.id && w.calls[c].row == p.row)
            || (c in w.replies && w.replies[c] == p)
  {
    if s.Move? || c != s.call { OthersStay(w, s, c); }
  }

  lemma {:induction false} SeenAlways(ws: seq<World>, steps: seq<Step>, j: nat, c: Call, p: Phase)
    requires IsRun(ws, steps) && ws[0] == START && j < |ws| && !p.Inserted?
    requires (c in ws[j].calls && ws[j].calls[c] == p) || (c in ws[j].replies && ws[j].replies[c] == p)
    ensures Seen(ws, j, p.id, p.row)
  {
    if j > 0 {
      var w := ws[j - 1];
      RunAt(ws, steps, j - 1);
      SeenStep(w, steps[j - 1], c, p);
      if p.id in w.st.rows && w.st.rows[p.id] == p.row {
        assert Seen(ws, j, p.id, p.row);
      } else {
        var q := if c in w.replies && w.replies[c] == p then p else w.calls[c];
        SeenAlways(ws, steps, j - 1, c, q);
      }
    }
  }

  /** What every 200 response tells: the decision of the action's one row, with the
      status and approval code that row held when it was reloaded. */
  lemma RepliesTellTheRow(ws: seq<World>, steps: seq<Step>, j: nat, c: Call)
    requires IsRun(ws, steps) && ws[0] == START && j < |ws| && c in ws[j].replies
    ensures var r := ws[j].replies[c];
            && r.Notified? && r.id in ws[j].st.rows && SameAction(r.row, ws[j].st.rows[r.id])
            && Seen(ws, j, r.id, r.row)
  {
    InvAlways(ws, steps, j);
    SeenAlways(ws, steps, j, c, ws[j].replies[c]);
  }

  /** A 200 response with status pending_approval carries a code, and its action has
      its notification queued: an approval request, unless a move took the draft off
      the path. Handlers, failures, redeliveries, sweeps and owner decisions
      interleave at will. */
  lemma PendingMeansOwnerAsked(ws: seq<World>, steps: seq<Step>, j: nat, c: Call)
    requires IsRun(ws, steps) && ws[0] == START && j < |ws| && c in ws[j].replies
    requires ws[j].replies[c].Notified? && ws[j].replies[c].row.status == Pending
    ensures var r := ws[j].replies[c];
            && r.row.code.Some? && r.id in ws[j].st.notes
            && (ws[j].st.notes[r.id].kind == ApprovalRequest || r.id in ws[j].st.strayed)
  {
    InvAlways(ws, steps, j);
  }

  /** Step i of the run took the draft off the path. */
  ghost predicate StraysAt(ws: seq<World>, steps: seq<Step>, i: nat, id: ActionID) {
    && i < |steps| && i < |ws| && steps[i].Move? && steps[i].id == id && id in ws[i].st.rows
    && Strays(ws[i].st, id, steps[i].to, steps[i].pause)
  }

  /** A draft has strayed exactly if some step of the run so far took it off the path. */
  lemma {:induction false} StrayedIs(ws: seq<World>, steps: seq<Step>, j: nat, id: ActionID)
    requires IsRun(ws, steps) && ws[0] == START && j < |ws|
    ensures id in ws[j].st.strayed <==> exists i: nat :: i < j && StraysAt(ws, steps, i, id)
  {
    if j > 0 {
      StrayedIs(ws, steps, j - 1, id);
      RunAt(ws, steps, j - 1);
      StrayStep(ws[j - 1], steps[j - 1], id);
      if StraysAt(ws, steps, j - 1, id) {
        assert id in ws[j].st.strayed;
      }
    }
  }

  lemma StrayStep(w: World, s: Step, id: ActionID)
    requires Enabled(w, s)
    ensures id in Apply(w, s).st.strayed <==>
            id in w.st.strayed || (s.Move? && s.id == id && Strays(w.st, id, s.to, s.pause))
  {
  }

  /** So in a run whose moves keep to the path, the answer pending_approval always
      means that the owner is asked. */
  lemma OnThePathOwnerIsAsked(ws: seq<World>, steps: seq<Step>, j: nat, c: Call)
    requires IsRun(ws, steps) && ws[0] == START && j < |ws| && c in ws[j].replies
    requires ws[j].replies[c].Notified? && ws[j].replies[c].row.status == Pending
    requires forall i: nat :: i < j ==> !StraysAt(ws, steps, i, ws[j].replies[c].id)
    ensures var id := ws[j].replies[c].id; id in ws[j].st.notes && ws[j].st.notes[id].kind == ApprovalRequest
  {
    PendingMeansOwnerAsked(ws, steps, j, c);
    StrayedIs(ws, steps, j, ws[j].replies[c].id);
  }

  /** A 200 response of an owner-facing call that was let through has its
      notification queued, with the text that was stored first. */
  lemma ExecutedMeansOwnerTold(ws: seq<World>, steps: seq<Step>, j: nat, c: Call)
    requires IsRun(ws, steps) && ws[0] == START && j < |ws| && c in ws[j].replies && ws[j].replies[c].Notified?
    requires ws[j].replies[c].row.kind != Reply && ws[j].replies[c].row.status == Executed
    ensures var r := ws[j].replies[c];
            r.id in ws[j].st.notes && r.id in ws[j].st.rows && ws[j].st.notes[r.id] == Note(OwnerNote, ws[j].st.rows[r.id].payload)
  {
    InvAlways(ws, steps, j);
  }

  /** Live approval codes are unique, and only terminal rows have given theirs up. */
  lemma CodesAreUnique(ws: seq<World>, steps: seq<Step>, j: nat, a: ActionID, b: ActionID)
    requires IsRun(ws, steps) && ws[0] == START && j < |ws| && a in ws[j].st.rows && b in ws[j].st.rows
    ensures ws[j].st.rows[a].status == Pending ==> ws[j].st.rows[a].code.Some?
    ensures ws[j].st.rows[a].code.Some? && ws[j].st.rows[a].code == ws[j].st.rows[b].code ==> a == b
  {
    InvAlways(ws, steps, j);
  }

  /** What a straying sweep does: once a second handler sees the draft denied for the
      pause, its alert takes the action's one notification slot, and the first handler
      answers pending_approval with an approval request exactly if one was queued
      before. */
  lemma AlertTakesTheSlot(w: World, first: Call, second: Call, text: string)
    requires IsReloaded(w, first) && IsReloaded(w, second) && first != second && w.calls[first].id == w.calls[second].id
    requires Enabled(w, QueueApproval(first, text)) && Enabled(w, QueueAlert(second))
    ensures var w1 := Apply(w, QueueAlert(second));
            && Enabled(w1, QueueApproval(first, text))
            && var w2 := Apply(w1, QueueApproval(first, text));
               && Enabled(w2, Respond(first))
               && var w3, id := Apply(w2, Respond(first)), w.calls[first].id;
                  && first in w3.replies && w3.replies[first] == Notified(id, w.calls[first].row)
                  && w3.replies[first].row.status == Pending && id in w3.st.notes
                  && (w3.st.notes[id].kind == ApprovalRequest <==> id in w.st.notes && w.st.notes[id].kind == ApprovalRequest)
                  && (id !in w.st.notes ==> w3.st.notes[id].kind == PauseAlert)
  {
  }

  lemma Extend(ws: seq<World>, steps: seq<Step>, s: Step) returns (vs: seq<World>, more: seq<Step>)
    requires IsRun(ws, steps) && Enabled(ws[|steps|], s)
    ensures vs == ws + [Apply(ws[|steps|], s)] && more == steps + [s] && IsRun(vs, more) && vs[0] == ws[0]
    ensures |more| == |steps| + 1 && vs[|more|] == Apply(ws[|steps|], s)
  {
    vs, more := ws + [Apply(ws[|steps|], s)], steps + [s];
    forall i: nat | i < |more| ensures Linked(vs, more, i) {
      if i < |steps| {
        assert Linked(ws, steps, i);
        assert vs[i] == ws[i] && vs[i + 1] == ws[i + 1] && more[i] == steps[i];
      }
    }
  }

  /** A reply without a job that needs approval is never without its notification. */
  ghost predicate JoblessAsked(st: Store) {
    forall id :: id in st.rows && st.rows[id].kind == Reply && st.rows[id].decision == RequireApproval && st.rows[id].job.None? ==>
      id in st.notes
  }

  lemma JoblessStep(w: World, s: Step)
    requires Enabled(w, s) && JoblessAsked(w.st)
    ensures JoblessAsked(Apply(w, s).st)
  {
  }

  lemma {:induction false} JoblessAlways(ws: seq<World>, steps: seq<Step>, i: nat)
    requires IsRun(ws, steps) && ws[0] == START && i < |ws|
    ensures JoblessAsked(ws[i].st)
  {
    if i > 0 {
      JoblessAlways(ws, steps, i - 1);
      RunAt(ws, steps, i - 1);
      JoblessStep(ws[i - 1], steps[i - 1]);
    }
  }

  lemma {:induction false} CallBound(s: set<Call>) returns (b: int)
    ensures forall c :: c in s ==> c.n < b
    decreases |s|
  {
    if s == {} {
      b := 0;
    } else {
      var c :| c in s;
      b := CallBound(s - {c});
      b := if c.n < b then b else c.n + 1;
      forall d | d in s ensures d.n < b {
        assert d == c || d in s - {c};
      }
    }
  }

  /** The handler `first` has still to queue the approval request of its draft, of
      which nobody has been notified. */
  ghost predicate AboutToAsk(w: World, first: Call) {
    && IsReloaded(w, first) && w.calls[first].row.kind == Reply && w.calls[first].row.status == Pending && !w.calls[first].queued
    && w.calls[first].id in w.st.rows && w.calls[first].id !in w.st.notes
  }

  /** Its draft has been denied for the pause since. */
  ghost predicate DeniedMeanwhile(w: World, first: Call) {
    && AboutToAsk(w, first)
    && var row := w.st.rows[w.calls[first].id];
       row.kind == Reply && row.status == Denied && row.pause && Exists(w.st, row) &&
       w.st.byJob[Key(row.job.value, Reply)] == w.calls[first].id
  }

  /** The answer pending_approval for an action whose only notification is the alert. */
  ghost predicate RequestLost(w: World, first: Call, id: ActionID) {
    && first in w.replies && w.replies[first].Notified? && w.replies[first].id == id && w.replies[first].row.status == Pending
    && id in w.st.notes && w.st.notes[id].kind == PauseAlert
  }

  lemma DenyMeanwhile(w: World, first: Call, to: Status, pause: bool)
    requires Inv(w) && JoblessAsked(w.st) && AboutToAsk(w, first)
    requires var id := w.calls[first].id; MoveEnabled(w.st, id, to, pause) && Strays(w.st, id, to, pause)
    ensures var id := w.calls[first].id;
            var w1 := Apply(w, Step.Move(id, to, pause));
            && w1.calls == w.calls && w1.replies == w.replies
            && if to == Denied then DeniedMeanwhile(w1, first)
               else Enabled(w1, Step.Move(id, Denied, true)) && DeniedMeanwhile(Apply(w1, Step.Move(id, Denied, true)), first) &&
                    Apply(w1, Step.Move(id, Denied, true)).calls == w.calls && Apply(w1, Step.Move(id, Denied, true)).replies == w.replies
  {
    var id := w.calls[first].id;
    var row := w.st.rows[id];
    assert RowOk(row) && row.job.Some?;
    assert w.st.byJob[Key(row.job.value, row.kind)] == id;
  }

  /** A redelivery that then sees the draft denied queues its alert first. */
  lemma RedeliveryTakesTheSlot(ws: seq<World>, steps: seq<Step>, first: Call, other: Call)
    returns (vs: seq<World>, more: seq<Step>)
    requires IsRun(ws, steps) && DeniedMeanwhile(ws[|steps|], first)
    requires other !in ws[|steps|].calls && other !in ws[|steps|].replies
    ensures IsRun(vs, more) && ws <= vs && steps <= more && RequestLost(vs[|more|], first, ws[|steps|].calls[first].id)
  {
    var w, id := ws[|steps|], ws[|steps|].calls[first].id;
    var row := w.st.rows[id];
    vs, more := Extend(ws, steps, Propose(other, row.job, true, Deny, false, Code(""), ""));
    assert vs[|more|] == w.(calls := w.calls[other := Inserted(id, false)]);
    vs, more := Extend(vs, more, Reload(other));
    assert vs[|more|] == w.(calls := w.calls[other := Reloaded(id, false, row)]);
    AlertTakesTheSlot(vs[|more|], first, other, "");
    vs, more := Extend(vs, more, QueueAlert(other));
    vs, more := Extend(vs, more, QueueApproval(first, ""));
    vs, more := Extend(vs, more, Respond(first));
  }

  lemma StrayThenDeny(ws: seq<World>, steps: seq<Step>, first: Call, to: Status, pause: bool)
    returns (vs: seq<World>, more: seq<Step>)
    requires IsRun(ws, steps) && Inv(ws[|steps|]) && JoblessAsked(ws[|steps|].st) && AboutToAsk(ws[|steps|], first)
    requires var w := ws[|steps|]; var id := w.calls[first].id; MoveEnabled(w.st, id, to, pause) && Strays(w.st, id, to, pause)
    ensures IsRun(vs, more) && ws <= vs && steps + [Step.Move(ws[|steps|].calls[first].id, to, pause)] <= more
    ensures DeniedMeanwhile(vs[|more|], first) && vs[|more|].calls == ws[|steps|].calls && vs[|more|].replies == ws[|steps|].replies
  {
    var id := ws[|steps|].calls[first].id;
    DenyMeanwhile(ws[|steps|], first, to, pause);
    vs, more := Extend(ws, steps, Step.Move(id, to, pause));
    if to != Denied { vs, more := Extend(vs, more, Step.Move(id, Denied, true)); }
  }

  lemma FreshCall(w: World) returns (c: Call)
    ensures c !in w.calls && c !in w.replies
  {
    var b := CallBound(w.calls.Keys + w.replies.Keys);
    c := Call(b);
  }

  /** The condition of OnThePathOwnerIsAsked is needed, whatever the run: as long as a
      handler has still to ask and nobody has been notified of its draft, every move
      that strays has a continuation in which that handler answers pending_approval
      and the owner is only told that the autopilot is paused. */
  lemma StrayingLosesTheRequest(ws: seq<World>, steps: seq<Step>, first: Call, to: Status, pause: bool)
    returns (vs: seq<World>, more: seq<Step>)
    requires IsRun(ws, steps) && ws[0] == START && AboutToAsk(ws[|steps|], first)
    requires var w := ws[|steps|]; var id := w.calls[first].id; MoveEnabled(w.st, id, to, pause) && Strays(w.st, id, to, pause)
    ensures IsRun(vs, more) && ws <= vs && steps + [Step.Move(ws[|steps|].calls[first].id, to, pause)] <= more
    ensures RequestLost(vs[|more|], first, ws[|steps|].calls[first].id)
  {
    InvAlways(ws, steps, |steps|);
    JoblessAlways(ws, steps, |steps|);
    vs, more := StrayThenDeny(ws, steps, first, to, pause);
    var other := FreshCall(ws[|steps|]);
    vs, more := RedeliveryTakesTheSlot(vs, more, first, other);
  }

  /** One such run: a sweep denies a draft for the pause between its handler's reload
      and its notification. */
  lemma SweptDraftIsLost() returns (ws: seq<World>, steps: seq<Step>)
    ensures IsRun(ws, steps) && ws[0] == START && RequestLost(ws[|steps|], Call(1), ActionID(0))
  {
    var id, row := ActionID(0), ReplyRow(Some(7), RequireApproval, false, Code("A"), "hi");
    ws, steps := [START], [];
    ws, steps := Extend(ws, steps, Propose(Call(1), Some(7), true, RequireApproval, false, Code("A"), "hi"));
    assert ws[|steps|] == World(Store(map[id := row], map[Key(7, Reply) := id], map[], 1, {}), map[Call(1) := Inserted(id, false)], map[]);
    ws, steps := Extend(ws, steps, Reload(Call(1)));
    ws, steps := StrayingLosesTheRequest(ws, steps, Call(1), Denied, true);
  }

  /** The moves that lead a waiting draft to each status. */
  function PathTo(to: Status): seq<Status> {
    match to
    case Pending => []
    case Executing => [Approved, Executing]
    case DeliveryUnknown => [Approved, Executing, DeliveryUnknown]
    case Executed => [Approved, Executing, DeliveryUnknown, Executed]
    case _ => [to]
  }

  lemma {:induction false} Follow(ws: seq<World>, steps: seq<Step>, path: seq<Status>) returns (vs: seq<World>, more: seq<Step>)
    requires IsRun(ws, steps) && ws[0] == START && ActionID(0) in ws[|steps|].st.rows
    requires path != [] ==> AllowedMove(ws[|steps|].st.rows[ActionID(0)].status, path[0])
    requires forall n :: 0 <= n < |path| - 1 ==> AllowedMove(path[n], path[n + 1])
    ensures IsRun(vs, more) && vs[0] == START && ActionID(0) in vs[|more|].st.rows
    ensures vs[|more|].st.rows[ActionID(0)].status == if path == [] then ws[|steps|].st.rows[ActionID(0)].status else path[|path| - 1]
    ensures vs[|more|].st.rows[ActionID(0)].decision == ws[|steps|].st.rows[ActionID(0)].decision
    decreases |path|
  {
    vs, more := ws, steps;
    if path != [] {
      vs, more := Extend(ws, steps, Step.Move(ActionID(0), path[0], false));
      assert vs[|more|].st.rows[ActionID(0)].status == path[0];
      vs, more := Follow(vs, more, path[1..]);
    }
  }

  /** A draft that is put to the owner can come to every status. */
  lemma EveryStatusIsReached(to: Status) returns (ws: seq<World>, steps: seq<Step>)
    ensures IsRun(ws, steps) && ws[0] == START && ActionID(0) in ws[|steps|].st.rows
    ensures ws[|steps|].st.rows[ActionID(0)].status == to && ws[|steps|].st.rows[ActionID(0)].decision == RequireApproval
  {
    ws, steps := [START], [];
    ws, steps := Extend(ws, steps, Propose(Call(1), None, true, RequireApproval, false, Code("A"), "hi"));
    assert ws[|steps|].st.rows[ActionID(0)].status == Pending;
    ws, steps := Follow(ws, steps, PathTo(to));
  }
}
