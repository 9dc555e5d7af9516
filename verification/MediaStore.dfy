/** One-shot media confirmations of the Local Bridge daemon: prepare hands out an
    id, get_media claims it for one download (localMediaStore and the get_media
    branch of dispatchCall, cmd/local/daemon.go). Clock readings are inputs. */
module MediaStore {
  import opened Wrappers

  const TTL := 600

  datatype Entry = Entry(peer: string, messageID: int, location: int, expiresAt: int, inFlight: bool)

  datatype Refusal = NotFound | InFlight

  /** A random confirmation id. */
  datatype Id = Id(hex: string)

  type Store = map<Id, Entry>

  // ----- the operations, as functions of the map -----

  predicate Stale(e: Entry, now: int) { !e.inFlight && now > e.expiresAt }

  function Swept(m: Store, now: int): Store {
    map id | id in m && !Stale(m[id], now) :: m[id]
  }

  function AfterPut(m: Store, id: Id, peer: string, messageID: int, location: int, prepared: int, now: int): Store {
    Swept(m, now)[id := Entry(peer, messageID, location, prepared + TTL, false)]
  }

  /** Whether a claim succeeds. */
  predicate Claimable(m: Store, id: Id, peer: string, messageID: int, now: int) {
    id in m && !m[id].inFlight && now <= m[id].expiresAt && m[id].peer == peer && m[id].messageID == messageID
  }

  function Claimed(m: Store, id: Id, peer: string, messageID: int, now: int): Store {
    if id !in m || m[id].inFlight then m
    else if Claimable(m, id, peer, messageID, now) then m[id := m[id].(inFlight := true)]
    else m - {id}
  }

  function Unclaimed(m: Store, id: Id): Store {
    if id in m then m[id := m[id].(inFlight := false)] else m
  }

  /** The opportunistic sweep of put; `order` is the order in which it happens to
      visit the map. */
  method DropStale(before: Store, order: seq<Id>, now: int) returns (m: Store)
    requires forall k :: k in before ==> k in order
    ensures m == Swept(before, now)
  {
    m := before;
    for i := 0 to |order|
      invariant forall k :: k in m ==> k in before && m[k] == before[k]
      invariant forall k :: k in before ==> (k in m <==> !(k in order[..i] && Stale(before[k], now)))
    {
      var k := order[i];
      if k in m && !m[k].inFlight && now > m[k].expiresAt { m := m - {k}; }
    }
    assert order[..|order|] == order;
    MapsEqual(m, Swept(before, now));
  }

  lemma MapsEqual(a: Store, b: Store)
    requires forall k :: k in a <==> k in b
    requires forall k :: k in a ==> a[k] == b[k]
    ensures a == b
  {
    assert a.Keys == b.Keys;
  }

  class LocalMediaStore {
    var m: Store

    constructor ()
      ensures m == map[]
    {
      m := map[];
    }

    method Put(id: Id, peer: string, messageID: int, location: int, prepared: int, now: int, order: seq<Id>)
      returns (expiresAt: int)
      requires forall k :: k in m ==> k in order
      modifies this
      ensures m == AfterPut(old(m), id, peer, messageID, location, prepared, now) && expiresAt == m[id].expiresAt
    {
      expiresAt := prepared + TTL;
      m := DropStale(m, order, now);
      m := m[id := Entry(peer, messageID, location, expiresAt, false)];
    }

    method Claim(id: Id, peer: string, messageID: int, now: int) returns (r: Result<Entry, Refusal>)
      modifies this
      ensures m == Claimed(old(m), id, peer, messageID, now)
      ensures r.Ok? <==> Claimable(old(m), id, peer, messageID, now)
      ensures r.Ok? ==> id in m && m[id] == r.value && r.value == old(m)[id].(inFlight := true)
      ensures r == Err(InFlight) <==> id in old(m) && old(m)[id].inFlight
    {
      if id !in m { return Err(NotFound); }
      var e := m[id];
      if e.inFlight { return Err(InFlight); }
      if now > e.expiresAt {
        m := m - {id};
        return Err(NotFound);
      }
      if e.peer != peer || e.messageID != messageID {
        m := m - {id};
        return Err(NotFound);
      }
      e := e.(inFlight := true);
      m := m[id := e];
      return Ok(e);
    }

    method Finalize(id: Id)
      modifies this
      ensures m == old(m) - {id}
    {
      m := m - {id};
    }

    method Unclaim(id: Id)
      modifies this
      ensures m == Unclaimed(old(m), id)
    {
      if id in m { m := m[id := m[id].(inFlight := false)]; }
    }
  }

  // ----- runs: prepares, claims and downloads in any order -----

  /** What an id was prepared for. */
  datatype Ticket = Ticket(peer: string, messageID: int, location: int, expiresAt: int)

  /** `downloads` are the get_media calls past their claim, by call. */
  datatype World = World(m: Store, tickets: map<Id, Ticket>, downloads: map<int, Id>, finished: set<Id>)

  datatype Step =
    | Prepare(id: Id, peer: string, messageID: int, location: int, prepared: int, now: int)
    | GetMedia(call: int, id: Id, peer: string, messageID: int, now: int)
    | Abort(call: int)   // cancelled or timed out
    | Finish(call: int)  // success or a real error

  /** Random ids do not repeat; a download ends once. */
  predicate Enabled(w: World, s: Step) {
    match s
    case Prepare(id, _, _, _, _, _) => id !in w.tickets
    case GetMedia(call, _, _, _, _) => call !in w.downloads
    case Abort(call) => call in w.downloads
    case Finish(call) => call in w.downloads
  }

  predicate Succeeds(w: World, s: Step) {
    s.GetMedia? && Claimable(w.m, s.id, s.peer, s.messageID, s.now)
  }

  function Apply(w: World, s: Step): World
    requires Enabled(w, s)
  {
    match s
    case Prepare(id, peer, messageID, location, prepared, now) =>
      w.(m := AfterPut(w.m, id, peer, messageID, location, prepared, now),
         tickets := w.tickets[id := Ticket(peer, messageID, location, prepared + TTL)])
    case GetMedia(call, id, peer, messageID, now) =>
      w.(m := Claimed(w.m, id, peer, messageID, now),
         downloads := if Succeeds(w, s) then w.downloads[call := id] else w.downloads)
    case Abort(call) => w.(m := Unclaimed(w.m, w.downloads[call]), downloads := w.downloads - {call})
    case Finish(call) =>
      w.(m := w.m - {w.downloads[call]}, downloads := w.downloads - {call}, finished := w.finished + {w.downloads[call]})
  }

  /** A run, as the worlds it passes through. */
  ghost predicate IsRun(ws: seq<World>, steps: seq<Step>) {
    && |ws| == |steps| + 1
    && forall i :: 0 <= i < |steps| ==> Enabled(ws[i], steps[i]) && ws[i + 1] == Apply(ws[i], steps[i])
  }

  const START := World(map[], map[], map[], {})

  /** Every download holds its own entry in flight, no two share one, an entry in
      flight has a download, entries are as prepared, finished ids are gone. */
  ghost predicate Inv(w: World) {
    && (forall c :: c in w.downloads ==> w.downloads[c] in w.m && w.m[w.downloads[c]].inFlight)
    && (forall c, d :: c in w.downloads && d in w.downloads && w.downloads[c] == w.downloads[d] ==> c == d)
    && (forall id :: id in w.m && w.m[id].inFlight ==> exists c :: c in w.downloads && w.downloads[c] == id)
    && (forall id :: id in w.m ==> id in w.tickets && id !in w.finished && MatchesTicket(w.m[id], w.tickets[id]))
    && (forall id :: id in w.finished ==> id in w.tickets)
  }

  predicate MatchesTicket(e: Entry, t: Ticket) {
    e.peer == t.peer && e.messageID == t.messageID && e.location == t.location && e.expiresAt == t.expiresAt
  }

  /** Only its own end touches a download or its entry. */
  lemma SurvivesStep(w: World, s: Step, c: int)
    requires Inv(w) && Enabled(w, s) && c in w.downloads && s != Abort(c) && s != Finish(c)
    ensures var w', id := Apply(w, s), w.downloads[c];
            c in w'.downloads && w'.downloads[c] == id && id in w.m && id in w'.m && w'.m[id] == w.m[id] && w.m[id].inFlight
  {
    var id := w.downloads[c];
    assert id in w.m && w.m[id].inFlight;
    match s {
      case Prepare(p, _, _, _, _, _) => assert p != id;
      case GetMedia(_, _, _, _, _) =>
      case Abort(call) => assert w.downloads[call] != id;
      case Finish(call) => assert w.downloads[call] != id;
    }
  }

  lemma EntryStep(w: World, s: Step, id: Id)
    requires Inv(w) && Enabled(w, s) && id in Apply(w, s).m
    ensures var w' := Apply(w, s);
            && id in w'.tickets && id !in w'.finished && MatchesTicket(w'.m[id], w'.tickets[id])
            && (w'.m[id].inFlight ==> (Succeeds(w, s) && id == s.id) || (id in w.m && w.m[id].inFlight))
  {
  }

  lemma FlightStep(w: World, s: Step, id: Id)
    requires Inv(w) && Enabled(w, s) && id in Apply(w, s).m && Apply(w, s).m[id].inFlight
    ensures exists c :: c in Apply(w, s).downloads && Apply(w, s).downloads[c] == id
  {
    var w' := Apply(w, s);
    EntryStep(w, s, id);
    if Succeeds(w, s) && id == s.id {
      assert s.call in w'.downloads && w'.downloads[s.call] == id;
    } else {
      var c :| c in w.downloads && w.downloads[c] == id;
      assert s != Abort(c) && s != Finish(c);
      SurvivesStep(w, s, c);
      assert c in w'.downloads && w'.downloads[c] == id;
    }
  }

  lemma DownloadStep(w: World, s: Step, c: int)
    requires Inv(w) && Enabled(w, s) && c in Apply(w, s).downloads
    ensures var w' := Apply(w, s);
            && w'.downloads[c] in w'.m && w'.m[w'.downloads[c]].inFlight
            && if Succeeds(w, s) && c == s.call then w'.downloads[c] == s.id && forall d :: d in w.downloads ==> w.downloads[d] != s.id
               else c in w.downloads && w'.downloads[c] == w.downloads[c]
  {
    if !(Succeeds(w, s) && c == s.call) { SurvivesStep(w, s, c); }
  }

  lemma InvStep(w: World, s: Step)
    requires Inv(w) && Enabled(w, s)
    ensures Inv(Apply(w, s))
  {
    var w' := Apply(w, s);
    forall c | c in w'.downloads ensures w'.downloads[c] in w'.m && w'.m[w'.downloads[c]].inFlight {
      DownloadStep(w, s, c);
    }
    forall c, d | c in w'.downloads && d in w'.downloads && w'.downloads[c] == w'.downloads[d] ensures c == d {
      DownloadStep(w, s, c);
      DownloadStep(w, s, d);
    }
    forall id | id in w'.m && w'.m[id].inFlight ensures exists c :: c in w'.downloads && w'.downloads[c] == id {
      FlightStep(w, s, id);
    }
    forall id | id in w'.m ensures id in w'.tickets && id !in w'.finished && MatchesTicket(w'.m[id], w'.tickets[id]) {
      EntryStep(w, s, id);
    }
  }

  lemma {:induction false} InvAlways(ws: seq<World>, steps: seq<Step>, i: nat)
    requires IsRun(ws, steps) && Inv(ws[0]) && i < |ws|
    ensures Inv(ws[i])
  {
    if i > 0 {
      InvAlways(ws, steps, i - 1);
      InvStep(ws[i - 1], steps[i - 1]);
    }
  }

  /** Over every run: at most one download per id is in flight. */
  lemma SingleFlight(ws: seq<World>, steps: seq<Step>, i: nat, c: int, d: int)
    requires IsRun(ws, steps) && ws[0] == START && i < |ws|
    requires c in ws[i].downloads && d in ws[i].downloads && ws[i].downloads[c] == ws[i].downloads[d]
    ensures c == d
  {
    InvAlways(ws, steps, i);
  }

  /** A claim succeeds exactly for the pair its id was prepared for, before that
      id's expiry, while the id is idle and has not died. */
  lemma ClaimIsExact(ws: seq<World>, steps: seq<Step>, i: nat)
    requires IsRun(ws, steps) && ws[0] == START && i < |steps| && steps[i].GetMedia?
    ensures var w, s := ws[i], steps[i];
            Succeeds(w, s) <==>
              && s.id in w.m && s.id in w.tickets && (forall c :: c in w.downloads ==> w.downloads[c] != s.id)
              && w.tickets[s.id].peer == s.peer && w.tickets[s.id].messageID == s.messageID
              && s.now <= w.tickets[s.id].expiresAt
  {
    InvAlways(ws, steps, i);
  }

  /** Until its own call ends, a download's entry survives whatever else happens:
      sweeps, expiry, wrong-pair probes and other calls' ends. */
  lemma {:induction false} InFlightSurvives(ws: seq<World>, steps: seq<Step>, i: nat, j: nat, c: int)
    requires IsRun(ws, steps) && Inv(ws[0]) && i <= j < |ws| && c in ws[i].downloads
    requires forall k :: i <= k < j ==> steps[k] != Abort(c) && steps[k] != Finish(c)
    ensures c in ws[j].downloads && ws[j].downloads[c] == ws[i].downloads[c]
    ensures var id := ws[i].downloads[c]; id in ws[i].m && id in ws[j].m && ws[j].m[id] == ws[i].m[id] && ws[i].m[id].inFlight
  {
    InvAlways(ws, steps, i);
    if i < j {
      InFlightSurvives(ws, steps, i, j - 1, c);
      InvAlways(ws, steps, j - 1);
      SurvivesStep(ws[j - 1], steps[j - 1], c);
    }
  }

  /** An id that was issued and is no longer in the store: used up, expired or
      probed with the wrong pair. */
  predicate Dead(w: World, id: Id) { id in w.tickets && id !in w.m }

  /** How ids die, exactly. */
  lemma DeathIs(w: World, s: Step, id: Id)
    requires Inv(w) && Enabled(w, s) && id in w.m
    ensures Dead(Apply(w, s), id) <==>
      || (s.Prepare? && Stale(w.m[id], s.now))
      || (s.GetMedia? && s.id == id && !w.m[id].inFlight && !Succeeds(w, s))
      || (s.Finish? && w.downloads[s.call] == id)
  {
  }

  /** A dead id stays dead, and no claim of it ever succeeds again. */
  lemma {:induction false} DeadForever(ws: seq<World>, steps: seq<Step>, i: nat, j: nat, id: Id)
    requires IsRun(ws, steps) && Inv(ws[0]) && i <= j < |ws| && Dead(ws[i], id)
    ensures Dead(ws[j], id)
    ensures j < |steps| && steps[j].GetMedia? && steps[j].id == id ==> !Succeeds(ws[j], steps[j])
  {
    if i < j {
      DeadForever(ws, steps, i, j - 1, id);
      InvAlways(ws, steps, j - 1);
    }
  }

  /** So an id ends in at most one finished download. */
  lemma FinishedOnce(ws: seq<World>, steps: seq<Step>, i: nat, j: nat)
    requires IsRun(ws, steps) && ws[0] == START && i < j < |steps|
    requires steps[i].Finish? && steps[j].Finish?
    ensures Enabled(ws[i], steps[i]) && Enabled(ws[j], steps[j])
    ensures ws[i].downloads[steps[i].call] != ws[j].downloads[steps[j].call]
  {
    InvAlways(ws, steps, i);
    InvAlways(ws, steps, j);
    var id := ws[i].downloads[steps[i].call];
    assert Dead(ws[i + 1], id);
    DeadForever(ws, steps, i + 1, j, id);
  }

  /** Step k prepared the id with what the entry holds, ten minutes before it expires. */
  predicate Prepares(s: Step, id: Id, e: Entry) {
    && s.Prepare? && s.id == id
    && s.peer == e.peer && s.messageID == e.messageID && s.location == e.location && s.prepared + 600 == e.expiresAt
  }

  lemma TicketOrigin(w: World, s: Step, id: Id)
    requires Enabled(w, s) && id in Apply(w, s).tickets
    ensures (id in w.tickets && Apply(w, s).tickets[id] == w.tickets[id])
         || (s.Prepare? && s.id == id && Apply(w, s).tickets[id] == Ticket(s.peer, s.messageID, s.location, s.prepared + 600))
  {
  }

  lemma {:induction false} TicketsArePrepared(ws: seq<World>, steps: seq<Step>, i: nat, id: Id) returns (k: nat)
    requires IsRun(ws, steps) && ws[0] == START && i < |ws| && id in ws[i].tickets
    ensures k < i && steps[k].Prepare? && steps[k].id == id
    ensures ws[i].tickets[id] == Ticket(steps[k].peer, steps[k].messageID, steps[k].location, steps[k].prepared + 600)
  {
    TicketOrigin(ws[i - 1], steps[i - 1], id);
    if id in ws[i - 1].tickets && ws[i].tickets[id] == ws[i - 1].tickets[id] {
      k := TicketsArePrepared(ws, steps, i - 1, id);
    } else {
      k := i - 1;
    }
  }

  /** What a claimed download fetches is what was prepared: over every run, the entry
      a successful claim takes is the one its id was handed out for. */
  lemma DownloadIsAsPrepared(ws: seq<World>, steps: seq<Step>, i: nat) returns (k: nat)
    requires IsRun(ws, steps) && ws[0] == START && i < |steps| && Succeeds(ws[i], steps[i])
    ensures k < i && steps[i].id in ws[i + 1].m && ws[i + 1].m[steps[i].id].inFlight
    ensures Prepares(steps[k], steps[i].id, ws[i + 1].m[steps[i].id])
    ensures steps[k].peer == steps[i].peer && steps[k].messageID == steps[i].messageID && steps[i].now <= steps[k].prepared + 600
  {
    InvAlways(ws, steps, i);
    k := TicketsArePrepared(ws, steps, i, steps[i].id);
  }

  /** An aborted download leaves the store as it was before its claim, so the same
      pair can try again. */
  lemma AbortRestores(m: Store, id: Id, peer: string, messageID: int, now: int)
    requires Claimable(m, id, peer, messageID, now)
    ensures Unclaimed(Claimed(m, id, peer, messageID, now), id) == m
  {
    assert m[id].(inFlight := true).(inFlight := false) == m[id];
  }
}
