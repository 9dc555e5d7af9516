/** The managed pool claim: nested loops that page through candidate accounts and
    claim at most one job of each (internal/agentapi/events.go). */
module PoolClaim {
  import opened Wrappers

  const MAX_SCAN := 4096

  // ----- candidates and pages -----

  datatype Cursor = Cursor(oldest: int, user: int)

  /** One candidate row; its cursor is its place in the candidate order. */
  datatype Candidate = Candidate(user: int, oldest: int) {
    function Place(): Cursor { Cursor(oldest, user) }
  }

  predicate Before(a: Cursor, b: Cursor) {
    a.oldest < b.oldest || (a.oldest == b.oldest && a.user < b.user)
  }

  predicate Beyond(c: Candidate, after: Option<Cursor>) {
    after.Some? ==> Before(after.value, c.Place())
  }

  predicate Ordered(s: seq<Candidate>) {
    forall i, j :: 0 <= i < j < |s| ==> Before(s[i].Place(), s[j].Place())
  }

  function Following(s: seq<Candidate>, after: Option<Cursor>): seq<Candidate> {
    if s == [] then []
    else (if Beyond(s[0], after) then [s[0]] else []) + Following(s[1..], after)
  }

  function Take<T>(s: seq<T>, n: nat): seq<T> {
    if |s| <= n then s else s[..n]
  }

  /** ListManagedClaimCandidates: rows strictly after the cursor, oldest first. */
  function Page(s: seq<Candidate>, after: Option<Cursor>, page: nat): seq<Candidate> {
    Take(Following(s, after), page)
  }

  // ----- one candidate -----

  datatype Job = Job(id: int, attempts: int)

  datatype Envelope = Envelope(user: int, job: Job, token: string)

  datatype Skip = RevokeCheck | Revoked | Render | ToolSet | ClaimError | Nothing | Mint

  datatype Claim = ClaimFailed | NoJob | Claimed(job: Job)

  /** What the services answer while one candidate is tried. `revocation` is None
      when no revocation store is configured. */
  datatype Answers = Answers(
    revocation: Option<Result<bool, ()>>,
    rendered: bool,
    toolsResolve: bool,
    claim: Claim,
    token: string)

  predicate Reached(a: Answers) {
    (a.revocation.None? || a.revocation.value == Ok(false)) && a.rendered && a.toolsResolve
  }

  function ClaimOne(c: Candidate, a: Answers): Result<Envelope, Skip> {
    if a.revocation.Some? && a.revocation.value.Err? then Err(RevokeCheck)
    else if a.revocation.Some? && a.revocation.value.value then Err(Revoked)
    else if !a.rendered then Err(Render)
    else if !a.toolsResolve then Err(ToolSet)
    else match a.claim
      case ClaimFailed => Err(ClaimError)
      case NoJob => Err(Nothing)
      case Claimed(j) => if a.token == "" then Err(Mint) else Ok(Envelope(c.user, j, a.token))
  }

  /** The job one try takes from the queue, if any, and the one it gives back. */
  function Taken(a: Answers): seq<Job> {
    if Reached(a) && a.claim.Claimed? then [a.claim.job] else []
  }

  function GivenBack(a: Answers): seq<Job> {
    if Reached(a) && a.claim.Claimed? && a.token == "" then [a.claim.job] else []
  }

  /** A try answers with the account's own job and its token exactly when the account
      was reached, a job claimed and a token minted; else it says which of these failed. */
  lemma ClaimOneMeans(c: Candidate, a: Answers)
    ensures var r := ClaimOne(c, a);
            && (r.Ok? <==> Reached(a) && a.claim.Claimed? && a.token != "")
            && (r.Ok? ==> r.value.user == c.user && r.value.job == a.claim.job && r.value.token == a.token)
            && (r in {Err(RevokeCheck), Err(Revoked), Err(Render), Err(ToolSet)} <==> !Reached(a))
            && (r == Err(RevokeCheck) <==> a.revocation.Some? && a.revocation.value.Err?)
            && (r == Err(Revoked) <==> a.revocation == Some(Ok(true)))
            && (r == Err(ClaimError) <==> Reached(a) && a.claim.ClaimFailed?)
            && (r == Err(Nothing) <==> Reached(a) && a.claim.NoJob?)
            && (r == Err(Mint) <==> Reached(a) && a.claim.Claimed? && a.token == "")
            && (r == Err(ToolSet) ==> a.rendered && !a.toolsResolve) && (r == Err(Render) ==> !a.rendered)
  {
  }

  // ----- one pass, as a fold -----

  /** `listing(k)` is the whole candidate order at the k-th read, which may change
      between reads; `answer(k, c)` is what a try of c meets after it. */
  datatype Env = Env(listing: nat -> seq<Candidate>, answer: (nat, Candidate) -> Answers)

  ghost predicate ValidEnv(env: Env) {
    forall k: nat :: Ordered(env.listing(k))
  }

  /** `claimed` and `released` span the request; the rest is one pass.
      `seen` are the rows read and `tried` those a claim was attempted for. */
  datatype State = State(
    readCount: nat,
    out: seq<Envelope>, served: set<int>, seen: seq<Candidate>, tried: seq<Candidate>,
    claimed: seq<Job>, released: seq<Job>)

  function Try(st: State, limit: nat, c: Candidate, a: Answers): State {
    if |st.out| >= limit || c.user in st.served then st
    else
      var st' := st.(tried := st.tried + [c], claimed := st.claimed + Taken(a), released := st.released + GivenBack(a));
      match ClaimOne(c, a)
      case Err(_) => st'
      case Ok(env) => st'.(served := st.served + {c.user}, out := st.out + [env])
  }

  /** Try rows lo up to hi in turn. */
  function Rows(env: Env, k: nat, st: State, limit: nat, rows: seq<Candidate>, lo: nat, hi: nat): State
    requires lo <= hi <= |rows|
  {
    if lo == hi then st
    else Try(Rows(env, k, st, limit, rows, lo, hi - 1), limit, rows[hi - 1], env.answer(k, rows[hi - 1]))
  }

  function ReadPage(env: Env, st: State, after: Option<Cursor>, page: nat): seq<Candidate> {
    Page(env.listing(st.readCount), after, page)
  }

  function PageStep(env: Env, st: State, limit: nat, rows: seq<Candidate>): State {
    Rows(env, st.readCount, st.(readCount := st.readCount + 1, seen := st.seen + rows), limit, rows, 0, |rows|)
  }

  function Walk(env: Env, st: State, limit: nat, page: nat, after: Option<Cursor>, scanned: nat): State
    requires page > 0
    decreases MAX_SCAN - scanned
  {
    if |st.out| >= limit || scanned >= MAX_SCAN then st
    else
      var rows := ReadPage(env, st, after, page);
      var st' := PageStep(env, st, limit, rows);
      if |rows| < page then st'
      else Walk(env, st', limit, page, Some(rows[|rows| - 1].Place()), scanned + page)
  }

  /** A pass starts with an empty response. */
  function FreshPass(st: State): State {
    st.(out := [], served := {}, seen := [], tried := [])
  }

  function Pass(env: Env, st: State, limit: nat, page: nat): State
    requires page > 0
  {
    Walk(env, FreshPass(st), limit, page, None, 0)
  }

  /** The whole request: passes until one serves someone, or `ticks` run out. */
  function Request(env: Env, st: State, limit: nat, page: nat, ticks: nat): State
    requires page > 0
    decreases ticks
  {
    var r := Pass(env, st, limit, page);
    if r.out != [] || ticks == 0 then r else Request(env, r, limit, page, ticks - 1)
  }

  // ----- the code -----

  class PoolServer {
    var candidatePage: nat
    var claimed: seq<Job>
    var released: seq<Job>
    var readCount: nat

    ghost function Snapshot(out: seq<Envelope>, served: set<int>, seen: seq<Candidate>, tried: seq<Candidate>): State
      reads this
    {
      State(readCount, out, served, seen, tried, claimed, released)
    }

    method PoolClaimOne(c: Candidate, a: Answers) returns (r: Result<Envelope, Skip>)
      modifies this`claimed, this`released
      ensures r == ClaimOne(c, a)
      ensures claimed == old(claimed) + Taken(a) && released == old(released) + GivenBack(a)
    {
      if a.revocation.Some? {
        if a.revocation.value.Err? { return Err(RevokeCheck); }
        if a.revocation.value.value { return Err(Revoked); }
      }
      if !a.rendered { return Err(Render); }
      if !a.toolsResolve { return Err(ToolSet); }
      if a.claim.ClaimFailed? { return Err(ClaimError); }
      if a.claim.NoJob? { return Err(Nothing); }
      var j := a.claim.job;
      claimed := claimed + [j];
      if a.token == "" {
        released := released + [j];
        return Err(Mint);
      }
      return Ok(Envelope(c.user, j, a.token));
    }

    /** The inner loop: the rows of one page. */
    method ClaimRows(env: Env, k: nat, cands: seq<Candidate>, limit: nat, out0: seq<Envelope>, served0: set<int>,
                     ghost seen: seq<Candidate>, ghost tried0: seq<Candidate>)
      returns (out: seq<Envelope>, served: set<int>, ghost tried: seq<Candidate>)
      modifies this`claimed, this`released
      ensures Snapshot(out, served, seen, tried)
           == Rows(env, k, old(Snapshot(out0, served0, seen, tried0)), limit, cands, 0, |cands|)
    {
      out, served, tried := out0, served0, tried0;
      ghost var start := Snapshot(out, served, seen, tried);
      var i := 0;
      while i < |cands|
        invariant 0 <= i <= |cands|
        invariant Snapshot(out, served, seen, tried) == Rows(env, k, start, limit, cands, 0, i)
      {
        var c := cands[i];
        if |out| >= limit {
          RowsWhenFull(env, k, start, limit, cands, 0, i);
          return;
        }
        i := i + 1;
        if c.user in served { continue; }
        tried := tried + [c];
        var r := PoolClaimOne(c, env.answer(k, c));
        if r.Err? { continue; }
        served := served + {c.user};
        out := out + [r.value];
      }
    }

    /** Read one page and try its rows. */
    method ClaimPage(env: Env, limit: nat, page: nat, after: Option<Cursor>, out0: seq<Envelope>, served0: set<int>,
                     ghost seen0: seq<Candidate>, ghost tried0: seq<Candidate>)
      returns (cands: seq<Candidate>, out: seq<Envelope>, served: set<int>, ghost end: State)
      modifies this`claimed, this`released, this`readCount
      ensures cands == ReadPage(env, old(Snapshot(out0, served0, seen0, tried0)), after, page)
      ensures end == PageStep(env, old(Snapshot(out0, served0, seen0, tried0)), limit, cands)
      ensures end == Snapshot(out, served, end.seen, end.tried)
    {
      var k := readCount;
      cands := Page(env.listing(k), after, page);
      readCount := k + 1;
      ghost var tried;
      out, served, tried := ClaimRows(env, k, cands, limit, out0, served0, seen0 + cands, tried0);
      end := Snapshot(out, served, seen0 + cands, tried);
    }

    /** One pass over the candidate order, page by page. */
    method ClaimPass(env: Env, limit: nat, page: nat) returns (out: seq<Envelope>, ghost end: State)
      requires page > 0
      modifies this`claimed, this`released, this`readCount
      ensures end == Pass(env, old(Snapshot([], {}, [], [])), limit, page)
      ensures end == Snapshot(out, end.served, end.seen, end.tried)
    {
      out := [];
      var after: Option<Cursor> := None;
      var served: set<int> := {};
      var scanned: nat := 0;
      end := Snapshot([], {}, [], []);
      ghost var goal := Pass(env, end, limit, page);
      while |out| < limit && scanned < MAX_SCAN
        invariant Walk(env, end, limit, page, after, scanned) == goal
        invariant end == Snapshot(out, served, end.seen, end.tried)
        decreases MAX_SCAN - scanned
      {
        var cands;
        ghost var st := end;
        cands, out, served, end := ClaimPage(env, limit, page, after, out, served, end.seen, end.tried);
        WalkUnfolds(env, st, limit, page, after, scanned, cands, end);
        if |cands| < page { return; }
        after := Some(cands[|cands| - 1].Place());
        scanned := scanned + page;
      }
    }

    /** The request: a pass per tick until one serves someone. */
    method HandlePoolClaim(env: Env, limit: nat, ticks: nat) returns (out: seq<Envelope>, ghost end: State)
      modifies this`claimed, this`released, this`readCount
      ensures end == Request(env, old(Snapshot([], {}, [], [])), limit, PageSize(candidatePage, limit), ticks)
      ensures end == Snapshot(out, end.served, end.seen, end.tried)
    {
      var page := PageSize(candidatePage, limit);
      ghost var goal := Request(env, Snapshot([], {}, [], []), limit, page, ticks);
      var left := ticks;
      out, end := ClaimPass(env, limit, page);
      while out == [] && left > 0
        invariant end == Snapshot(out, end.served, end.seen, end.tried)
        invariant Onward(env, end, limit, page, left) == goal
        decreases left
      {
        left := left - 1;
        ghost var start, tried := Snapshot([], {}, [], []), end;
        out, end := ClaimPass(env, limit, page);
        PassOnward(env, tried, start, limit, page, left);
      }
    }
  }

  /** What a request comes to after a pass that ended in `st`, with `left` ticks to go. */
  function Onward(env: Env, st: State, limit: nat, page: nat, left: nat): State
    requires page > 0
  {
    if st.out == [] && left > 0 then Request(env, st, limit, page, left - 1) else st
  }

  lemma PassOnward(env: Env, st: State, start: State, limit: nat, page: nat, left: nat)
    requires page > 0 && st.out == [] && FreshPass(st) == FreshPass(start)
    ensures Onward(env, st, limit, page, left + 1) == Onward(env, Pass(env, start, limit, page), limit, page, left)
  {
  }

  lemma WalkUnfolds(env: Env, st: State, limit: nat, page: nat, after: Option<Cursor>, scanned: nat,
                    rows: seq<Candidate>, st': State)
    requires page > 0 && |st.out| < limit && scanned < MAX_SCAN
    requires rows == ReadPage(env, st, after, page)
    requires st' == PageStep(env, st, limit, rows)
    ensures Walk(env, st, limit, page, after, scanned)
         == if |rows| < page then st' else Walk(env, st', limit, page, Some(rows[|rows| - 1].Place()), scanned + page)
  {
  }

  /** A page from a state where `inv` holds ends the walk with `post`, or goes on
      with `inv`. */
  ghost predicate PageRule(env: Env, limit: nat, page: nat, s: State, after: Option<Cursor>, n: nat,
                           inv: (State, Option<Cursor>, nat) -> bool, post: State -> bool)
  {
    if |s.out| >= limit || n >= MAX_SCAN then post(s)
    else
      var rows := ReadPage(env, s, after, page);
      var r := PageStep(env, s, limit, rows);
      if |rows| < page || rows == [] then post(r) else inv(r, Some(rows[|rows| - 1].Place()), n + page)
  }

  /** The loop rule of the walk. */
  lemma {:induction false} WalkRule(env: Env, st: State, limit: nat, page: nat, after: Option<Cursor>, n: nat,
                                    inv: (State, Option<Cursor>, nat) -> bool, post: State -> bool)
    requires page > 0 && inv(st, after, n)
    requires forall s, a, k: nat :: inv(s, a, k) ==> PageRule(env, limit, page, s, a, k, inv, post)
    ensures post(Walk(env, st, limit, page, after, n))
    decreases MAX_SCAN - n
  {
    assert PageRule(env, limit, page, st, after, n, inv, post);
    if |st.out| < limit && n < MAX_SCAN {
      var rows := ReadPage(env, st, after, page);
      var r := PageStep(env, st, limit, rows);
      WalkUnfolds(env, st, limit, page, after, n, rows, r);
      if |rows| >= page { WalkRule(env, r, limit, page, Some(rows[|rows| - 1].Place()), n + page, inv, post); }
    }
  }

  /** max(poolCandidatePage, limit, 1). */
  function PageSize(candidatePage: nat, limit: nat): (p: nat)
    ensures p >= 1 && p >= limit && p >= candidatePage && (p == 1 || p == limit || p == candidatePage)
  {
    var m := if candidatePage >= limit then candidatePage else limit;
    if m >= 1 then m else 1
  }

  lemma {:induction false} RowsWhenFull(env: Env, k: nat, st: State, limit: nat, rows: seq<Candidate>, lo: nat, hi: nat)
    requires lo <= hi <= |rows| && |Rows(env, k, st, limit, rows, lo, hi).out| >= limit
    ensures Rows(env, k, st, limit, rows, lo, |rows|) == Rows(env, k, st, limit, rows, lo, hi)
    decreases |rows| - hi
  {
    if hi < |rows| { RowsWhenFull(env, k, st, limit, rows, lo, hi + 1); }
  }

  // ----- bounded, one job per account, nothing lost -----

  function Jobs(out: seq<Envelope>): seq<Job> {
    seq(|out|, i requires 0 <= i < |out| => out[i].job)
  }

  /** The response stays within its limit, holds one job per account, each with a
      token; and `served` is exactly the accounts in it. */
  predicate OnePerAccount(st: State, limit: nat) {
    && |st.out| <= limit
    && (forall i :: 0 <= i < |st.out| ==> st.out[i].token != "" && st.out[i].user in st.served)
    && (forall i, j :: 0 <= i < j < |st.out| ==> st.out[i].user != st.out[j].user)
  }

  /** Every job taken from the queue is in the response or was given back. */
  predicate Conserved(st: State) {
    Balanced(st.claimed, Jobs(st.out), st.released)
  }

  predicate Balanced(claimed: seq<Job>, kept: seq<Job>, released: seq<Job>) {
    multiset(claimed) == multiset(kept) + multiset(released)
  }

  predicate Books(st: State, limit: nat) { OnePerAccount(st, limit) && Conserved(st) }

  lemma BalancedAdds(claimed: seq<Job>, kept: seq<Job>, released: seq<Job>, j: Job)
    requires Balanced(claimed, kept, released)
    ensures Balanced(claimed + [j], kept + [j], released)
    ensures Balanced(claimed + [j], kept, released + [j])
  {
  }

  lemma AddConserves(st: State, r: State, e: Envelope)
    requires Conserved(st) && r.claimed == st.claimed + [e.job]
    requires (r.out == st.out && r.released == st.released + [e.job])
          || (r.out == st.out + [e] && r.released == st.released)
    ensures Conserved(r)
  {
    BalancedAdds(st.claimed, Jobs(st.out), st.released, e.job);
    assert Jobs(st.out + [e]) == Jobs(st.out) + [e.job];
  }

  lemma TryConserves(st: State, limit: nat, c: Candidate, a: Answers)
    requires Conserved(st)
    ensures Conserved(Try(st, limit, c, a))
  {
    var r := Try(st, limit, c, a);
    if |st.out| < limit && c.user !in st.served && Taken(a) != [] {
      AddConserves(st, r, Envelope(c.user, a.claim.job, a.token));
    } else {
      assert r.out == st.out && r.released == st.released && r.claimed == st.claimed;
    }
  }

  lemma TryServesOnce(st: State, limit: nat, c: Candidate, a: Answers)
    requires OnePerAccount(st, limit)
    ensures OnePerAccount(Try(st, limit, c, a), limit)
  {
  }

  lemma {:induction false} RowsKeepBooks(env: Env, k: nat, st: State, limit: nat, rows: seq<Candidate>, hi: nat)
    requires hi <= |rows| && Books(st, limit)
    ensures Books(Rows(env, k, st, limit, rows, 0, hi), limit)
  {
    if hi > 0 {
      var mid, last := Rows(env, k, st, limit, rows, 0, hi - 1), rows[hi - 1];
      RowsKeepBooks(env, k, st, limit, rows, hi - 1);
      TryConserves(mid, limit, last, env.answer(k, last));
      TryServesOnce(mid, limit, last, env.answer(k, last));
    }
  }

  lemma PageKeepsBooks(env: Env, st: State, limit: nat, rows: seq<Candidate>)
    requires Books(st, limit)
    ensures Books(PageStep(env, st, limit, rows), limit)
  {
    RowsKeepBooks(env, st.readCount, st.(readCount := st.readCount + 1, seen := st.seen + rows), limit, rows, |rows|);
  }

  lemma WalkKeepsBooks(env: Env, st: State, limit: nat, page: nat)
    requires page > 0 && Books(st, limit)
    ensures Books(Walk(env, st, limit, page, None, 0), limit)
  {
    var inv := (s: State, a: Option<Cursor>, n: nat) => Books(s, limit);
    var post := (s: State) => Books(s, limit);
    forall s, a, n: nat | inv(s, a, n) ensures PageRule(env, limit, page, s, a, n, inv, post) {
      PageKeepsBooks(env, s, limit, ReadPage(env, s, a, page));
    }
    WalkRule(env, st, limit, page, None, 0, inv, post);
  }

  /** Whatever the candidate order and the services do, over every pass of the
      request: at most `limit` jobs, one per account, each with a token, and every
      job claimed is in the response or had its release attempted. */
  lemma {:induction false} RequestConserves(env: Env, st: State, limit: nat, page: nat, ticks: nat)
    requires page > 0 && st.out == [] && multiset(st.claimed) == multiset(st.released)
    ensures OnePerAccount(Request(env, st, limit, page, ticks), limit)
    ensures Conserved(Request(env, st, limit, page, ticks))
    decreases ticks
  {
    assert Jobs(FreshPass(st).out) == [];
    WalkKeepsBooks(env, FreshPass(st), limit, page);
    var r := Pass(env, st, limit, page);
    if r.out == [] && ticks > 0 {
      RequestConserves(env, r, limit, page, ticks - 1);
    }
  }

  // ----- coverage: nobody is overtaken -----

  lemma {:induction false} FollowingIs(s: seq<Candidate>, after: Option<Cursor>)
    requires Ordered(s)
    ensures Ordered(Following(s, after))
    ensures forall c :: c in Following(s, after) <==> c in s && Beyond(c, after)
  {
    if s != [] {
      FollowingIs(s[1..], after);
      assert Ordered(s[1..]);
      var rest := Following(s[1..], after);
      forall i | 0 <= i < |rest| ensures Before(s[0].Place(), rest[i].Place()) {
        assert rest[i] in s[1..];
      }
    }
  }

  /** A page is ordered and misses a row after the cursor only when it is full of
      rows that come before it. */
  lemma PageIs(s: seq<Candidate>, after: Option<Cursor>, page: nat, c: Candidate)
    requires Ordered(s)
    ensures var rows := Page(s, after, page);
            && Ordered(rows) && |rows| <= page
            && (forall i :: 0 <= i < |rows| ==> Beyond(rows[i], after))
            && (c in s && Beyond(c, after) && c !in rows ==>
                |rows| == page && forall i :: 0 <= i < |rows| ==> Before(rows[i].Place(), c.Place()))
  {
    FollowingIs(s, after);
    var all, rows := Following(s, after), Page(s, after, page);
    forall i | 0 <= i < |rows| ensures Beyond(rows[i], after) { assert rows[i] in all; }
    if c in s && Beyond(c, after) && c !in rows {
      var j :| 0 <= j < |all| && all[j] == c;
      assert rows == all[..|rows|] && j >= |rows|;
    }
  }

  ghost predicate TriedUser(tried: seq<Candidate>, user: int) {
    exists t :: t in tried && t.user == user
  }

  ghost predicate ServedWereTried(st: State) {
    forall u :: u in st.served ==> TriedUser(st.tried, u)
  }

  ghost predicate TriedFrom(before: seq<Candidate>, after: seq<Candidate>, rows: seq<Candidate>) {
    && (forall t :: t in before ==> t in after)
    && (forall t :: t in after ==> t in before || t in rows)
    && (forall u :: TriedUser(before, u) ==> TriedUser(after, u))
  }

  /** Rows are tried in order until the response is full. */
  ghost predicate TriedInOrder(before: seq<Candidate>, after: seq<Candidate>, full: bool, rows: seq<Candidate>) {
    && (!full ==> forall i :: 0 <= i < |rows| ==> TriedUser(after, rows[i].user))
    && (forall t, i :: t in after && t !in before && 0 <= i < |rows| && Before(rows[i].Place(), t.Place())
          ==> TriedUser(after, rows[i].user))
  }

  lemma TryTries(st: State, limit: nat, c: Candidate, a: Answers)
    requires ServedWereTried(st)
    ensures var r := Try(st, limit, c, a);
            && ServedWereTried(r) && |st.out| <= |r.out| && TriedFrom(st.tried, r.tried, [c])
            && (|st.out| < limit ==> TriedUser(r.tried, c.user))
            && (|st.out| >= limit ==> r == st)
            && r.seen == st.seen && r.readCount == st.readCount
  {
    var r := Try(st, limit, c, a);
    assert forall t :: t in st.tried ==> t in r.tried;
    if r.tried != st.tried {
      assert r.tried == st.tried + [c] && c in r.tried;
    }
  }

  lemma {:induction false} RowsTry(env: Env, k: nat, st: State, limit: nat, rows: seq<Candidate>, hi: nat)
    requires hi <= |rows| && Ordered(rows) && ServedWereTried(st)
    ensures var r := Rows(env, k, st, limit, rows, 0, hi);
            && ServedWereTried(r) && TriedFrom(st.tried, r.tried, rows[..hi]) && TriedInOrder(st.tried, r.tried, |r.out| >= limit, rows[..hi])
            && r.seen == st.seen && r.readCount == st.readCount
  {
    if hi > 0 {
      var mid, last := Rows(env, k, st, limit, rows, 0, hi - 1), rows[hi - 1];
      assert rows[..hi] == rows[..hi - 1] + [last];
      RowsTry(env, k, st, limit, rows, hi - 1);
      TryTries(mid, limit, last, env.answer(k, last));
      RowsTryStep(st, mid, Try(mid, limit, last, env.answer(k, last)), limit, rows[..hi - 1], last);
    }
  }

  lemma RowsTryStep(st: State, mid: State, r: State, limit: nat, front: seq<Candidate>, last: Candidate)
    requires Ordered(front + [last])
    requires TriedFrom(st.tried, mid.tried, front) && TriedInOrder(st.tried, mid.tried, |mid.out| >= limit, front)
    requires TriedFrom(mid.tried, r.tried, [last]) && |mid.out| <= |r.out|
    requires |mid.out| < limit ==> TriedUser(r.tried, last.user)
    requires |mid.out| >= limit ==> r == mid
    ensures TriedFrom(st.tried, r.tried, front + [last]) && TriedInOrder(st.tried, r.tried, |r.out| >= limit, front + [last])
  {
    var rows := front + [last];
    forall t, i | t in r.tried && t !in st.tried && 0 <= i < |rows| && Before(rows[i].Place(), t.Place())
      ensures TriedUser(r.tried, rows[i].user)
    {
      if |mid.out| >= limit {
        assert t in front;
        var j :| 0 <= j < |front| && front[j] == t;
        assert rows[j] == t && rows[|front|] == last;
        assert i < |front|;
        assert rows[i] == front[i];
      } else if i < |front| {
        assert rows[i] == front[i];
      }
    }
  }

  /** c is in the candidate order, at the same place, from the k-th read on. */
  ghost predicate Stable(env: Env, k: nat, c: Candidate) {
    forall i: nat :: i >= k ==> c in env.listing(i)
  }

  /** Between pages: everything read or tried lies up to the cursor, and a stable
      candidate up to the cursor was tried. */
  ghost predicate Caught(st: State, after: Option<Cursor>, c: Candidate) {
    && ServedWereTried(st)
    && (forall t :: t in st.tried || t in st.seen ==> after.Some? && !Before(after.value, t.Place()))
    && (!Beyond(c, after) ==> TriedUser(st.tried, c.user))
  }

  ghost predicate NotOvertaken(st: State, c: Candidate) {
    forall t :: t in st.tried && Before(c.Place(), t.Place()) ==> TriedUser(st.tried, c.user)
  }

  ghost predicate ScanEndsBefore(st: State, c: Candidate) {
    |st.seen| >= 4096 && forall t :: t in st.seen ==> Before(t.Place(), c.Place())
  }

  /** What a page leaves a stable candidate with. */
  ghost predicate PageResult(st: State, r: State, limit: nat, page: nat, rows: seq<Candidate>, c: Candidate) {
    && |rows| <= page && r.seen == st.seen + rows && r.readCount == st.readCount + 1
    && NotOvertaken(r, c)
    && (|r.out| < limit && |rows| < page ==> TriedUser(r.tried, c.user))
    && (|r.out| < limit && 0 < |rows| == page ==> Caught(r, Some(rows[|rows| - 1].Place()), c))
  }

  /** One page, seen by a stable candidate after the cursor. */
  lemma PageCatches(env: Env, st: State, limit: nat, page: nat, after: Option<Cursor>, c: Candidate)
    requires page > 0 && ValidEnv(env) && c in env.listing(st.readCount) && Caught(st, after, c)
    ensures var rows := ReadPage(env, st, after, page); PageResult(st, PageStep(env, st, limit, rows), limit, page, rows, c)
  {
    var rows := ReadPage(env, st, after, page);
    PageIs(env.listing(st.readCount), after, page, c);
    PageTries(env, st, limit, rows);
    PageCaught(st, PageStep(env, st, limit, rows), limit, page, rows, after, c);
  }

  lemma PageTries(env: Env, st: State, limit: nat, rows: seq<Candidate>)
    requires Ordered(rows) && ServedWereTried(st)
    ensures var r := PageStep(env, st, limit, rows);
            && ServedWereTried(r) && TriedFrom(st.tried, r.tried, rows) && TriedInOrder(st.tried, r.tried, |r.out| >= limit, rows)
            && r.seen == st.seen + rows && r.readCount == st.readCount + 1
  {
    var st0 := st.(readCount := st.readCount + 1, seen := st.seen + rows);
    RowsTry(env, st.readCount, st0, limit, rows, |rows|);
    assert rows[..|rows|] == rows;
  }

  lemma PageCaught(st: State, r: State, limit: nat, page: nat, rows: seq<Candidate>, after: Option<Cursor>, c: Candidate)
    requires Caught(st, after, c) && Ordered(rows) && |rows| <= page
    requires forall i :: 0 <= i < |rows| ==> Beyond(rows[i], after)
    requires Beyond(c, after) && c !in rows ==> |rows| == page && forall i :: 0 <= i < |rows| ==> Before(rows[i].Place(), c.Place())
    requires ServedWereTried(r) && TriedFrom(st.tried, r.tried, rows) && TriedInOrder(st.tried, r.tried, |r.out| >= limit, rows)
    requires r.seen == st.seen + rows && r.readCount == st.readCount + 1
    ensures PageResult(st, r, limit, page, rows, c)
  {
    PageOvertakesNobody(st, r, limit, rows, after, c);
    if |r.out| < limit {
      FoundIsTried(st, r, limit, rows, c);
      if 0 < |rows| == page { PageMovesOn(st, r, rows, after, c); }
    }
  }

  lemma FoundIsTried(st: State, r: State, limit: nat, rows: seq<Candidate>, c: Candidate)
    requires TriedInOrder(st.tried, r.tried, |r.out| >= limit, rows) && |r.out| < limit
    ensures c in rows ==> TriedUser(r.tried, c.user)
  {
    if i :| 0 <= i < |rows| && rows[i] == c {
      assert TriedUser(r.tried, rows[i].user);
    }
  }

  lemma PageOvertakesNobody(st: State, r: State, limit: nat, rows: seq<Candidate>, after: Option<Cursor>, c: Candidate)
    requires Caught(st, after, c) && Ordered(rows)
    requires TriedFrom(st.tried, r.tried, rows) && TriedInOrder(st.tried, r.tried, |r.out| >= limit, rows)
    requires Beyond(c, after) && c !in rows ==> forall i :: 0 <= i < |rows| ==> Before(rows[i].Place(), c.Place())
    ensures NotOvertaken(r, c)
    ensures !Beyond(c, after) ==> TriedUser(r.tried, c.user)
  {
    if Beyond(c, after) {
      forall t | t in r.tried && Before(c.Place(), t.Place()) ensures TriedUser(r.tried, c.user) {
        assert t !in st.tried;
        assert t in rows;
        if c in rows {
          var i :| 0 <= i < |rows| && rows[i] == c;
          assert TriedUser(r.tried, rows[i].user);
        }
      }
    }
  }

  lemma PageMovesOn(st: State, r: State, rows: seq<Candidate>, after: Option<Cursor>, c: Candidate)
    requires Ordered(rows) && rows != [] && Caught(st, after, c) && ServedWereTried(r)
    requires forall i :: 0 <= i < |rows| ==> Beyond(rows[i], after)
    requires forall t :: t in r.tried ==> t in st.tried || t in rows
    requires r.seen == st.seen + rows
    requires Beyond(c, after) && c !in rows ==> forall i :: 0 <= i < |rows| ==> Before(rows[i].Place(), c.Place())
    requires !Beyond(c, after) || c in rows ==> TriedUser(r.tried, c.user)
    ensures Caught(r, Some(rows[|rows| - 1].Place()), c)
  {
    var last := rows[|rows| - 1].Place();
    assert Beyond(rows[|rows| - 1], after);
    forall t | t in r.tried || t in r.seen ensures !Before(last, t.Place()) {
      if t in rows {
        var i :| 0 <= i < |rows| && rows[i] == t;
        assert i < |rows| - 1 ==> Before(rows[i].Place(), last);
      } else {
        assert t in st.tried || t in st.seen;
      }
    }
  }

  ghost predicate Covered(r: State, limit: nat, c: Candidate) {
    && NotOvertaken(r, c)
    && (|r.out| < limit ==> TriedUser(r.tried, c.user) || ScanEndsBefore(r, c))
  }

  lemma ScanEnds(st: State, limit: nat, after: Option<Cursor>, c: Candidate)
    requires Caught(st, after, c) && (|st.out| >= limit || |st.seen| >= MAX_SCAN)
    ensures Covered(st, limit, c)
  {
    if Beyond(c, after) && st.seen != [] {
      assert st.seen[0] in st.seen;
      forall t | t in st.seen ensures Before(t.Place(), c.Place()) {
        assert !Before(after.value, t.Place());
      }
    }
  }

  lemma PageCovers(env: Env, s: State, limit: nat, page: nat, after: Option<Cursor>, c: Candidate,
                   inv: (State, Option<Cursor>, nat) -> bool, post: State -> bool)
    requires page > 0 && ValidEnv(env) && Stable(env, s.readCount, c)
    requires Caught(s, after, c) || (|s.out| >= limit && NotOvertaken(s, c))
    requires forall r, a, n: nat :: inv(r, a, n) <==> Going(env, r, limit, a, n, c)
    requires forall r :: post(r) <==> Covered(r, limit, c)
    ensures PageRule(env, limit, page, s, after, |s.seen|, inv, post)
  {
    if |s.out| >= limit || |s.seen| >= MAX_SCAN {
      if Caught(s, after, c) { ScanEnds(s, limit, after, c); }
    } else {
      PageCatches(env, s, limit, page, after, c);
    }
  }

  /** Between pages, or done: the loop invariant of the walk. */
  ghost predicate Going(env: Env, s: State, limit: nat, after: Option<Cursor>, n: nat, c: Candidate) {
    && Stable(env, s.readCount, c) && (|s.out| < limit ==> |s.seen| == n)
    && (Caught(s, after, c) || (|s.out| >= limit && NotOvertaken(s, c)))
  }

  lemma WalkCovers(env: Env, st: State, limit: nat, page: nat, c: Candidate)
    requires page > 0 && ValidEnv(env) && Stable(env, st.readCount, c) && Caught(st, None, c) && st.seen == []
    ensures Covered(Walk(env, st, limit, page, None, 0), limit, c)
  {
    var inv := (s: State, a: Option<Cursor>, n: nat) => Going(env, s, limit, a, n, c);
    var post := (s: State) => Covered(s, limit, c);
    forall s, a, n: nat | inv(s, a, n) ensures PageRule(env, limit, page, s, a, n, inv, post) {
      PageCovers(env, s, limit, page, a, c, inv, post);
    }
    WalkRule(env, st, limit, page, None, 0, inv, post);
  }

  /** Fairness, however the candidate order changes between reads: an account that
      keeps its place is tried before anyone placed after it, and a response short
      of its limit has tried it, unless 4096 rows placed before it were read. */
  lemma NobodyStarves(env: Env, st: State, limit: nat, page: nat, c: Candidate)
    requires page > 0 && ValidEnv(env) && Stable(env, st.readCount, c)
    ensures Covered(Pass(env, st, limit, page), limit, c)
  {
    WalkCovers(env, FreshPass(st), limit, page, c);
  }

  // ----- a request keeps looking -----

  /** The state the i-th of the passes that end in ps starts from. */
  function StartOf(st: State, ps: seq<State>, i: nat): State
    requires i <= |ps|
  {
    if i == 0 then st else ps[i - 1]
  }

  predicate Chain(next: State -> State, st: State, ps: seq<State>) {
    forall i {:trigger StartOf(st, ps, i)} :: 0 <= i < |ps| ==> ps[i] == next(StartOf(st, ps, i))
  }

  lemma ChainGrows(next: State -> State, st: State, rest: seq<State>)
    requires Chain(next, next(st), rest)
    ensures Chain(next, st, [next(st)] + rest)
  {
    var ps := [next(st)] + rest;
    forall i | 0 <= i < |ps| ensures ps[i] == next(StartOf(st, ps, i)) {
      if i > 0 {
        assert StartOf(st, ps, i) == StartOf(next(st), rest, i - 1);
      }
    }
  }

  function PassOf(env: Env, limit: nat, page: nat): State -> State
    requires page > 0
  {
    s => Pass(env, s, limit, page)
  }

  /** ps are the ends of the passes made from st on, one after the other. */
  predicate Passes(env: Env, st: State, limit: nat, page: nat, ps: seq<State>)
    requires page > 0
  {
    Chain(PassOf(env, limit, page), st, ps)
  }

  lemma PassAt(env: Env, st: State, limit: nat, page: nat, ps: seq<State>, i: nat)
    requires page > 0 && Passes(env, st, limit, page, ps) && i < |ps|
    ensures ps[i] == Pass(env, StartOf(st, ps, i), limit, page)
  {
    assert ps[i] == PassOf(env, limit, page)(StartOf(st, ps, i));
  }

  /** The last pass is the answer and those before it served nobody; an answer that
      is empty took all the passes there was time for. */
  predicate KeptLooking(r: State, ticks: nat, ps: seq<State>) {
    && 1 <= |ps| <= ticks + 1 && r == ps[|ps| - 1]
    && (forall i :: 0 <= i < |ps| - 1 ==> ps[i].out == [])
    && (r.out == [] ==> |ps| == ticks + 1)
  }

  lemma LookingGrows(r: State, ticks: nat, p: State, rest: seq<State>)
    requires KeptLooking(r, ticks, rest) && p.out == []
    ensures KeptLooking(r, ticks + 1, [p] + rest)
  {
  }

  lemma {:induction false} RequestKeepsLooking(env: Env, st: State, limit: nat, page: nat, ticks: nat) returns (ps: seq<State>)
    requires page > 0
    ensures Passes(env, st, limit, page, ps) && KeptLooking(Request(env, st, limit, page, ticks), ticks, ps)
    decreases ticks
  {
    var r := Pass(env, st, limit, page);
    assert PassOf(env, limit, page)(st) == r;
    if r.out != [] || ticks == 0 {
      ps := [r];
      ChainGrows(PassOf(env, limit, page), st, []);
      assert [r] + [] == ps;
    } else {
      var rest := RequestKeepsLooking(env, r, limit, page, ticks - 1);
      ps := [r] + rest;
      ChainGrows(PassOf(env, limit, page), st, rest);
      LookingGrows(Request(env, r, limit, page, ticks - 1), ticks - 1, r, rest);
    }
  }

  lemma {:induction false} RowsRead(env: Env, k: nat, st: State, limit: nat, rows: seq<Candidate>, hi: nat)
    requires hi <= |rows|
    ensures Rows(env, k, st, limit, rows, 0, hi).readCount == st.readCount && Rows(env, k, st, limit, rows, 0, hi).seen == st.seen
  {
    if hi > 0 { RowsRead(env, k, st, limit, rows, hi - 1); }
  }

  lemma PageReads(env: Env, st: State, limit: nat, rows: seq<Candidate>)
    ensures PageStep(env, st, limit, rows).readCount == st.readCount + 1 && PageStep(env, st, limit, rows).seen == st.seen + rows
  {
    RowsRead(env, st.readCount, st.(readCount := st.readCount + 1, seen := st.seen + rows), limit, rows, |rows|);
  }

  /** What every page adds to: a bound on the reads so far, and a row that was read. */
  ghost predicate HasRead(s: State, count: nat, c: Option<Candidate>) {
    s.readCount >= count && (c.Some? ==> c.value in s.seen)
  }

  lemma WalkReads(env: Env, st: State, limit: nat, page: nat, after: Option<Cursor>, n: nat, count: nat, c: Option<Candidate>)
    requires page > 0 && HasRead(st, count, c)
    ensures HasRead(Walk(env, st, limit, page, after, n), count, c)
  {
    var inv := (s: State, a: Option<Cursor>, k: nat) => HasRead(s, count, c);
    var post := (s: State) => HasRead(s, count, c);
    forall s, a, k: nat | inv(s, a, k) ensures PageRule(env, limit, page, s, a, k, inv, post) {
      PageReads(env, s, limit, ReadPage(env, s, a, page));
    }
    WalkRule(env, st, limit, page, after, n, inv, post);
  }

  /** Every pass reads, and the first account of the order is among what it reads. */
  lemma PassReads(env: Env, st: State, limit: nat, page: nat, c: Option<Candidate>)
    requires page > 0 && limit > 0 && (c.Some? ==> env.listing(st.readCount) != [] && env.listing(st.readCount)[0] == c.value)
    ensures HasRead(Pass(env, st, limit, page), st.readCount + 1, c)
  {
    var s := FreshPass(st);
    var rows := ReadPage(env, s, None, page);
    var r := PageStep(env, s, limit, rows);
    PageReads(env, s, limit, rows);
    FollowingAll(env.listing(s.readCount), None);
    assert c.Some? ==> rows[0] in rows && rows[0] == c.value;
    WalkUnfolds(env, s, limit, page, None, 0, rows, r);
    if |rows| >= page { WalkReads(env, r, limit, page, Some(rows[|rows| - 1].Place()), page, st.readCount + 1, c); }
  }

  /** From the k-th read on a try of this account succeeds. */
  ghost predicate Claimable(env: Env, k: nat, user: int) {
    forall i: nat, t: Candidate {:trigger env.answer(i, t)} :: i >= k && t.user == user ==> ClaimOne(t, env.answer(i, t)).Ok?
  }

  /** Nothing served, so the account was not tried. */
  ghost predicate Quiet(s: State, user: int) { s.out == [] ==> !TriedUser(s.tried, user) && s.served == {} }

  lemma TryQuiet(s: State, limit: nat, c: Candidate, a: Answers, user: int)
    requires Quiet(s, user) && (c.user == user ==> ClaimOne(c, a).Ok?)
    ensures Quiet(Try(s, limit, c, a), user)
  {
  }

  lemma {:induction false} RowsQuiet(env: Env, k: nat, st: State, limit: nat, rows: seq<Candidate>, hi: nat, user: int)
    requires hi <= |rows| && Quiet(st, user) && Claimable(env, k, user)
    ensures Quiet(Rows(env, k, st, limit, rows, 0, hi), user)
  {
    if hi > 0 {
      RowsQuiet(env, k, st, limit, rows, hi - 1, user);
      TryQuiet(Rows(env, k, st, limit, rows, 0, hi - 1), limit, rows[hi - 1], env.answer(k, rows[hi - 1]), user);
    }
  }

  ghost predicate QuietFrom(env: Env, s: State, user: int) { Quiet(s, user) && Claimable(env, s.readCount, user) }

  lemma PageQuiet(env: Env, st: State, limit: nat, rows: seq<Candidate>, user: int)
    requires QuietFrom(env, st, user)
    ensures QuietFrom(env, PageStep(env, st, limit, rows), user)
  {
    RowsQuiet(env, st.readCount, st.(readCount := st.readCount + 1, seen := st.seen + rows), limit, rows, |rows|, user);
    PageReads(env, st, limit, rows);
  }

  lemma PassQuiet(env: Env, st: State, limit: nat, page: nat, user: int)
    requires page > 0 && Claimable(env, st.readCount, user)
    ensures Quiet(Pass(env, st, limit, page), user)
  {
    var inv := (s: State, a: Option<Cursor>, n: nat) => QuietFrom(env, s, user);
    var post := (s: State) => Quiet(s, user);
    forall s, a, n: nat | inv(s, a, n) ensures PageRule(env, limit, page, s, a, n, inv, post) {
      PageQuiet(env, s, limit, ReadPage(env, s, a, page), user);
    }
    WalkRule(env, FreshPass(st), limit, page, None, 0, inv, post);
  }

  /** The account keeps its place from the k-th read on and its claim succeeds. */
  ghost predicate Waiting(env: Env, k: nat, c: Candidate) { Stable(env, k, c) && Claimable(env, k, c.user) }

  /** A pass with an account waiting serves somebody, unless 4096 rows before it were read. */
  lemma PassServes(env: Env, st: State, limit: nat, page: nat, c: Candidate)
    requires page > 0 && limit > 0 && ValidEnv(env) && Waiting(env, st.readCount, c)
    ensures Pass(env, st, limit, page).out != [] || ScanEndsBefore(Pass(env, st, limit, page), c)
  {
    NobodyStarves(env, st, limit, page, c);
    PassQuiet(env, st, limit, page, c.user);
  }

  lemma {:induction false} ChainReads(next: State -> State, st: State, ps: seq<State>, i: nat)
    requires Chain(next, st, ps) && i <= |ps|
    requires forall s :: next(s).readCount > s.readCount
    ensures StartOf(st, ps, i).readCount >= st.readCount + i
  {
    if i > 0 {
      ChainReads(next, st, ps, i - 1);
      assert ps[i - 1] == next(StartOf(st, ps, i - 1));
    }
  }

  lemma PassesRead(env: Env, st: State, limit: nat, page: nat, ps: seq<State>, i: nat)
    requires page > 0 && limit > 0 && Passes(env, st, limit, page, ps) && i <= |ps|
    ensures StartOf(st, ps, i).readCount >= st.readCount + i
  {
    forall s: State ensures PassOf(env, limit, page)(s).readCount > s.readCount {
      PassReads(env, s, limit, page, None);
    }
    ChainReads(PassOf(env, limit, page), st, ps, i);
  }

  /** The pass from `st` to `r` served nobody and tried every account in place from
      its start on, unless 4096 rows before it were read. */
  ghost predicate LookedInVain(env: Env, st: State, r: State) {
    r.out == [] && forall c :: Stable(env, st.readCount, c) ==> TriedUser(r.tried, c.user) || ScanEndsBefore(r, c)
  }

  lemma PassLooks(env: Env, st: State, limit: nat, page: nat)
    requires page > 0 && limit > 0 && ValidEnv(env) && Pass(env, st, limit, page).out == []
    ensures LookedInVain(env, st, Pass(env, st, limit, page))
  {
    forall c | Stable(env, st.readCount, c)
      ensures TriedUser(Pass(env, st, limit, page).tried, c.user) || ScanEndsBefore(Pass(env, st, limit, page), c)
    {
      NobodyStarves(env, st, limit, page, c);
    }
  }

  /** An empty answer means as many passes as there was time for, each in vain. */
  lemma EmptyMeansAllWereTried(env: Env, st: State, limit: nat, page: nat, ticks: nat) returns (ps: seq<State>)
    requires page > 0 && limit > 0 && ValidEnv(env) && Request(env, st, limit, page, ticks).out == []
    ensures Passes(env, st, limit, page, ps) && |ps| == ticks + 1
    ensures forall i {:trigger ps[i]} :: 0 <= i < |ps| ==> LookedInVain(env, StartOf(st, ps, i), ps[i])
  {
    ps := RequestKeepsLooking(env, st, limit, page, ticks);
    forall i | 0 <= i < |ps| ensures LookedInVain(env, StartOf(st, ps, i), ps[i]) {
      PassAt(env, st, limit, page, ps, i);
      PassLooks(env, StartOf(st, ps, i), limit, page);
    }
  }

  lemma LastPassIsLate(env: Env, st: State, limit: nat, page: nat, ticks: nat) returns (from: State)
    requires page > 0 && limit > 0 && Request(env, st, limit, page, ticks).out == []
    ensures Request(env, st, limit, page, ticks) == Pass(env, from, limit, page) && from.readCount >= st.readCount + ticks
  {
    var ps := RequestKeepsLooking(env, st, limit, page, ticks);
    from := StartOf(st, ps, ticks);
    PassAt(env, st, limit, page, ps, ticks);
    PassesRead(env, st, limit, page, ps, ticks);
  }

  /** An account that comes to wait by the time of the last pass gets the request
      answered: with somebody, unless 4096 rows before it were read. */
  lemma PatienceIsRewarded(env: Env, st: State, limit: nat, page: nat, ticks: nat, k: nat, c: Candidate)
    requires page > 0 && limit > 0 && ValidEnv(env) && Waiting(env, k, c) && k <= st.readCount + ticks
    ensures var r := Request(env, st, limit, page, ticks); r.out != [] || ScanEndsBefore(r, c)
  {
    if Request(env, st, limit, page, ticks).out == [] {
      var from := LastPassIsLate(env, st, limit, page, ticks);
      PassServes(env, from, limit, page, c);
    }
  }

  /** And with somebody in any case, if it comes to wait at the head of the order. */
  lemma FirstInLineIsAnswered(env: Env, st: State, limit: nat, page: nat, ticks: nat, k: nat, c: Candidate)
    requires page > 0 && limit > 0 && ValidEnv(env) && Claimable(env, k, c.user) && k <= st.readCount + ticks
    requires forall i: nat :: i >= k ==> env.listing(i) != [] && env.listing(i)[0] == c
    ensures Request(env, st, limit, page, ticks).out != []
  {
    if Request(env, st, limit, page, ticks).out == [] {
      var from := LastPassIsLate(env, st, limit, page, ticks);
      assert Stable(env, k, c);
      PassServes(env, from, limit, page, c);
      PassReads(env, from, limit, page, Some(c));
    }
  }

  // ----- paging is invisible: the simple form -----

  /** Where the scan of a long, unchanging order stops: the end of the page that
      reaches the scan bound. */
  function ScanEnd(scanned: nat, page: nat): (e: nat)
    requires page > 0
    ensures scanned < MAX_SCAN ==> MAX_SCAN <= e < MAX_SCAN + page
    ensures scanned >= MAX_SCAN ==> e == scanned
    decreases MAX_SCAN - scanned
  {
    if scanned >= MAX_SCAN then scanned else ScanEnd(scanned + page, page)
  }

  /** An order that does not change while the request walks it. */
  function Still(list: seq<Candidate>, answer: Candidate -> Answers): Env {
    Env(_ => list, (_, c) => answer(c))
  }

  ghost predicate IsStill(env: Env, list: seq<Candidate>) {
    && (forall k :: env.listing(k) == list)
    && (forall k, c :: env.answer(k, c) == env.answer(0, c))
  }

  /** Equal in everything the pool does and returns. */
  predicate SameEffect(a: State, b: State) {
    && a.out == b.out && a.served == b.served && a.tried == b.tried
    && a.claimed == b.claimed && a.released == b.released
  }

  lemma TrySameEffect(a: State, b: State, limit: nat, c: Candidate, ans: Answers)
    requires SameEffect(a, b)
    ensures SameEffect(Try(a, limit, c, ans), Try(b, limit, c, ans))
  {
  }

  /** A page does what its slice of the list does. */
  lemma {:induction false} SliceSameEffect(env: Env, k: nat, a: State, b: State, limit: nat, rows: seq<Candidate>,
                                           list: seq<Candidate>, n: nat, len: nat)
    requires SameEffect(a, b) && forall c :: env.answer(k, c) == env.answer(0, c)
    requires len <= |rows| && n + |rows| <= |list| && rows == list[n..n + |rows|]
    ensures SameEffect(Rows(env, k, a, limit, rows, 0, len), Rows(env, 0, b, limit, list, n, n + len))
  {
    if len > 0 {
      SliceSameEffect(env, k, a, b, limit, rows, list, n, len - 1);
      TrySameEffect(Rows(env, k, a, limit, rows, 0, len - 1), Rows(env, 0, b, limit, list, n, n + len - 1), limit,
                    rows[len - 1], env.answer(k, rows[len - 1]));
    }
  }

  lemma {:induction false} RowsSameEffect(env: Env, a: State, b: State, limit: nat, rows: seq<Candidate>, lo: nat, hi: nat)
    requires lo <= hi <= |rows| && SameEffect(a, b)
    ensures SameEffect(Rows(env, 0, a, limit, rows, lo, hi), Rows(env, 0, b, limit, rows, lo, hi))
  {
    if lo < hi {
      RowsSameEffect(env, a, b, limit, rows, lo, hi - 1);
      TrySameEffect(Rows(env, 0, a, limit, rows, lo, hi - 1), Rows(env, 0, b, limit, rows, lo, hi - 1), limit,
                    rows[hi - 1], env.answer(0, rows[hi - 1]));
    }
  }

  lemma {:induction false} FullStays(env: Env, st: State, limit: nat, rows: seq<Candidate>, lo: nat, hi: nat)
    requires lo <= hi <= |rows| && |st.out| >= limit
    ensures Rows(env, 0, st, limit, rows, lo, hi) == st
  {
    if lo < hi { FullStays(env, st, limit, rows, lo, hi - 1); }
  }

  lemma {:induction false} RowsAppend(env: Env, k: nat, st: State, limit: nat, rows: seq<Candidate>, lo: nat, mid: nat, hi: nat)
    requires lo <= mid <= hi <= |rows|
    ensures Rows(env, k, st, limit, rows, lo, hi) == Rows(env, k, Rows(env, k, st, limit, rows, lo, mid), limit, rows, mid, hi)
  {
    if mid < hi { RowsAppend(env, k, st, limit, rows, lo, mid, hi - 1); }
  }

  function CursorAt(list: seq<Candidate>, n: nat): Option<Cursor>
    requires n <= |list|
  {
    if n == 0 then None else Some(list[n - 1].Place())
  }

  lemma {:induction false} FollowingAll(s: seq<Candidate>, after: Option<Cursor>)
    requires forall i :: 0 <= i < |s| ==> Beyond(s[i], after)
    ensures Following(s, after) == s
  {
    if s != [] { FollowingAll(s[1..], after); }
  }

  lemma {:induction false} FollowingSkips(s: seq<Candidate>, after: Option<Cursor>, n: nat)
    requires n <= |s| && forall i :: 0 <= i < n ==> !Beyond(s[i], after)
    ensures Following(s, after) == Following(s[n..], after)
  {
    if n == 0 {
      assert s[n..] == s;
    } else {
      FollowingSkips(s[1..], after, n - 1);
      assert s[1..][n - 1..] == s[n..];
    }
  }

  lemma PageAt(list: seq<Candidate>, n: nat, page: nat)
    requires Ordered(list) && n <= |list|
    ensures Page(list, CursorAt(list, n), page) == Take(list[n..], page)
  {
    var after := CursorAt(list, n);
    forall i | 0 <= i < n ensures !Beyond(list[i], after) {
      assert i < n - 1 ==> Before(list[i].Place(), list[n - 1].Place());
    }
    FollowingSkips(list, after, n);
    FollowingAll(list[n..], after);
  }

  /** The end of the rows an unchanging order offers a scan that has come to row n. */
  function Stop(list: seq<Candidate>, n: nat, page: nat): (e: nat)
    requires page > 0 && n <= |list|
    ensures n <= e <= |list|
  {
    if ScanEnd(n, page) <= |list| then ScanEnd(n, page) else |list|
  }

  /** The page of an unchanging order that a scan at row n reads. */
  lemma ReadPageAt(env: Env, list: seq<Candidate>, st: State, page: nat, n: nat)
    requires page > 0 && Ordered(list) && n <= |list| && IsStill(env, list)
    ensures var rows := ReadPage(env, st, CursorAt(list, n), page);
            && |rows| <= page && n + |rows| <= |list| && rows == list[n..n + |rows|]
            && (|rows| < page ==> n + |rows| == |list|)
            && (|rows| == page ==> CursorAt(list, n + page) == Some(rows[|rows| - 1].Place()))
  {
    PageAt(list, n, page);
  }

  /** It does what its stretch of the list does. */
  lemma PageStepAt(env: Env, list: seq<Candidate>, st: State, limit: nat, rows: seq<Candidate>, n: nat)
    requires n + |rows| <= |list| && rows == list[n..n + |rows|] && IsStill(env, list)
    ensures SameEffect(PageStep(env, st, limit, rows), Rows(env, 0, st, limit, list, n, n + |rows|))
  {
    SliceSameEffect(env, st.readCount, st.(readCount := st.readCount + 1, seen := st.seen + rows), st, limit,
                    rows, list, n, |rows|);
  }

  lemma RowsJoin(env: Env, st: State, r: State, limit: nat, list: seq<Candidate>, lo: nat, mid: nat, hi: nat)
    requires lo <= mid <= hi <= |list| && SameEffect(r, Rows(env, 0, st, limit, list, lo, mid))
    ensures SameEffect(Rows(env, 0, r, limit, list, mid, hi), Rows(env, 0, st, limit, list, lo, hi))
  {
    RowsAppend(env, 0, st, limit, list, lo, mid, hi);
    RowsSameEffect(env, r, Rows(env, 0, st, limit, list, lo, mid), limit, list, mid, hi);
  }

  /** The walk has come to row n, and trying the rest one by one would give `goal`. */
  ghost predicate OnTrack(env: Env, list: seq<Candidate>, s: State, limit: nat, page: nat, after: Option<Cursor>, n: nat, goal: State)
    requires page > 0
  {
    n <= |list| && after == CursorAt(list, n) && SameEffect(Rows(env, 0, s, limit, list, n, Stop(list, n, page)), goal)
  }

  lemma FlatDone(env: Env, list: seq<Candidate>, s: State, limit: nat, page: nat, after: Option<Cursor>, n: nat, goal: State)
    requires page > 0 && OnTrack(env, list, s, limit, page, after, n, goal) && (|s.out| >= limit || n >= MAX_SCAN)
    ensures SameEffect(s, goal)
  {
    if |s.out| >= limit { FullStays(env, s, limit, list, n, Stop(list, n, page)); }
  }

  lemma FlatNext(env: Env, list: seq<Candidate>, s: State, r: State, limit: nat, page: nat, n: nat, len: nat, goal: State)
    requires page > 0 && n < MAX_SCAN && n <= |list| && OnTrack(env, list, s, limit, page, CursorAt(list, n), n, goal)
    requires len <= page && n + len <= |list| && (len < page ==> n + len == |list|)
    requires SameEffect(r, Rows(env, 0, s, limit, list, n, n + len))
    ensures if len < page then SameEffect(r, goal) else OnTrack(env, list, r, limit, page, CursorAt(list, n + page), n + page, goal)
  {
    if len == page { RowsJoin(env, s, r, limit, list, n, n + page, Stop(list, n, page)); }
  }

  lemma FlatPage(env: Env, list: seq<Candidate>, s: State, limit: nat, page: nat, after: Option<Cursor>, n: nat, goal: State,
                 inv: (State, Option<Cursor>, nat) -> bool, post: State -> bool)
    requires page > 0 && Ordered(list) && IsStill(env, list) && OnTrack(env, list, s, limit, page, after, n, goal)
    requires forall r, a, k: nat :: inv(r, a, k) <==> OnTrack(env, list, r, limit, page, a, k, goal)
    requires forall r :: post(r) <==> SameEffect(r, goal)
    ensures PageRule(env, limit, page, s, after, n, inv, post)
  {
    if |s.out| >= limit || n >= MAX_SCAN {
      FlatDone(env, list, s, limit, page, after, n, goal);
    } else {
      var rows := ReadPage(env, s, after, page);
      ReadPageAt(env, list, s, page, n);
      PageStepAt(env, list, s, limit, rows, n);
      FlatNext(env, list, s, PageStep(env, s, limit, rows), limit, page, n, |rows|, goal);
    }
  }

  lemma WalkIsFlat(env: Env, list: seq<Candidate>, st: State, limit: nat, page: nat)
    requires page > 0 && Ordered(list) && IsStill(env, list)
    ensures SameEffect(Walk(env, st, limit, page, None, 0), Rows(env, 0, st, limit, list, 0, Stop(list, 0, page)))
  {
    var goal := Rows(env, 0, st, limit, list, 0, Stop(list, 0, page));
    var inv := (s: State, a: Option<Cursor>, n: nat) => OnTrack(env, list, s, limit, page, a, n, goal);
    var post := (s: State) => SameEffect(s, goal);
    forall s, a, n: nat | inv(s, a, n) ensures PageRule(env, limit, page, s, a, n, inv, post) {
      FlatPage(env, list, s, limit, page, a, n, goal, inv, post);
    }
    WalkRule(env, st, limit, page, None, 0, inv, post);
  }

  /** The envelopes of the accounts whose claim succeeds, in candidate order. */
  function Successes(rows: seq<Candidate>, answer: Candidate -> Answers, n: nat): seq<Envelope>
    requires n <= |rows|
  {
    if n == 0 then []
    else
      var r := ClaimOne(rows[n - 1], answer(rows[n - 1]));
      if r.Ok? then Successes(rows, answer, n - 1) + [r.value] else Successes(rows, answer, n - 1)
  }

  predicate DistinctUsers(rows: seq<Candidate>) {
    forall i, j :: 0 <= i < j < |rows| ==> rows[i].user != rows[j].user
  }

  lemma {:induction false} RowsServeSuccesses(
    env: Env, answer: Candidate -> Answers, st: State, limit: nat, rows: seq<Candidate>, n: nat)
    requires forall c :: env.answer(0, c) == answer(c)
    requires n <= |rows| && DistinctUsers(rows) && st.out == [] && st.served == {}
    ensures var r := Rows(env, 0, st, limit, rows, 0, n);
            && r.out == Take(Successes(rows, answer, n), limit)
            && forall u :: u in r.served ==> exists i :: 0 <= i < n && rows[i].user == u
  {
    if n > 0 {
      RowsServeSuccesses(env, answer, st, limit, rows, n - 1);
    }
  }

  /** On an unchanging order the paged, bounded walk serves exactly the first
      `limit` accounts whose claim succeeds, among the rows up to the scan bound. */
  lemma PoolServesFirstSuccesses(list: seq<Candidate>, answer: Candidate -> Answers, st: State, limit: nat, page: nat)
    requires page > 0 && Ordered(list) && DistinctUsers(list)
    ensures Pass(Still(list, answer), st, limit, page).out
         == Take(Successes(list, answer, Stop(list, 0, page)), limit)
  {
    WalkIsFlat(Still(list, answer), list, FreshPass(st), limit, page);
    RowsServeSuccesses(Still(list, answer), answer, FreshPass(st), limit, list, Stop(list, 0, page));
  }
}
