/** Scoring a run of the suite (internal/agenteval/score.go). */
module Score {
  import opened Wrappers
  import opened FakeTask
  import Conformance
  import Interleaved

  datatype Suite = Suite(fixtures: seq<Fixture>, minClassification: nat)

  datatype Outcome = Outcome(result: FixtureResult, correct: bool, wrongAutoSends: nat)

  datatype Report = Report(
    total: nat, minClassification: nat,
    classified: nat, terminal: nat, leaks: nat, bindingViolations: nat, wrongAutoSends: nat,
    missing: seq<Word>, unexpected: seq<Word>, outcomes: seq<Outcome>, passed: bool)

  // ----- one fixture -----

  predicate Correct(checkLeads: bool, f: Fixture, r: FixtureResult) {
    r.action == f.expectedAction && (!checkLeads || r.leadFieldsOK)
  }

  predicate WrongSend(f: Fixture, a: AutoSend) { !f.expectAllow || a.markers != [] }

  function WrongSends(f: Fixture, sends: seq<AutoSend>, n: nat): (w: nat)
    requires n <= |sends|
    ensures w == 0 <==> forall i :: 0 <= i < n ==> !WrongSend(f, sends[i])
  {
    if n == 0 then 0 else WrongSends(f, sends, n - 1) + if WrongSend(f, sends[n - 1]) then 1 else 0
  }

  function Scored(checkLeads: bool, f: Fixture, r: FixtureResult): Outcome {
    Outcome(r, Correct(checkLeads, f, r), WrongSends(f, r.autoSends, |r.autoSends|))
  }

  method ScoreFixture(f: Fixture, checkLeads: bool, r: FixtureResult) returns (o: Outcome)
    ensures o == Scored(checkLeads, f, r)
  {
    var wrong := 0;
    for i := 0 to |r.autoSends|
      invariant wrong == WrongSends(f, r.autoSends, i)
    {
      if !f.expectAllow || |r.autoSends[i].markers| > 0 { wrong := wrong + 1; }
    }
    o := Outcome(r, r.action == f.expectedAction && (!checkLeads || r.leadFieldsOK), wrong);
  }

  // ----- the whole run, as functions of the results -----

  predicate Selected(only: seq<Word>, f: Fixture) { only == [] || f.id in only }

  function Expected(fixtures: seq<Fixture>, only: seq<Word>, n: nat): (e: seq<Fixture>)
    requires n <= |fixtures|
    ensures forall f :: f in e <==> Selected(only, f) && f in fixtures[..n]
  {
    if n == 0 then []
    else
      assert fixtures[..n] == fixtures[..n - 1] + [fixtures[n - 1]];
      if Selected(only, fixtures[n - 1]) then Expected(fixtures, only, n - 1) + [fixtures[n - 1]]
      else Expected(fixtures, only, n - 1)
  }

  /** The results of one fixture, in order: what the by-id map holds. */
  function Of(results: seq<FixtureResult>, id: Word, n: nat): seq<FixtureResult>
    requires n <= |results|
  {
    if n == 0 then []
    else if results[n - 1].id == id then Of(results, id, n - 1) + [results[n - 1]]
    else Of(results, id, n - 1)
  }

  function ResultsFor(results: seq<FixtureResult>, id: Word): seq<FixtureResult> { Of(results, id, |results|) }

  datatype Tally = Tally(classified: nat, terminal: nat, leaks: nat, violations: nat, wrong: nat,
                         missing: seq<Word>, repeated: seq<Word>, outcomes: seq<Outcome>)

  function Count(t: Tally, o: Outcome): Tally {
    t.(classified := t.classified + (if o.correct then 1 else 0),
       terminal := t.terminal + (if o.result.terminal then 1 else 0),
       leaks := t.leaks + (if o.result.leaks != [] then 1 else 0),
       violations := t.violations + (if o.result.bindingViolation then 1 else 0),
       wrong := t.wrong + o.wrongAutoSends,
       outcomes := t.outcomes + [o])
  }

  function Tallied(checkLeads: bool, expected: seq<Fixture>, results: seq<FixtureResult>, n: nat): Tally
    requires n <= |expected|
  {
    if n == 0 then Tally(0, 0, 0, 0, 0, [], [], [])
    else
      var t, f := Tallied(checkLeads, expected, results, n - 1), expected[n - 1];
      var got := ResultsFor(results, f.id);
      if |got| == 0 then t.(missing := t.missing + [f.id])
      else if |got| == 1 then Count(t, Scored(checkLeads, f, got[0]))
      else t.(repeated := t.repeated + [f.id])
  }

  predicate HasId(fixtures: seq<Fixture>, id: Word) { exists i :: 0 <= i < |fixtures| && fixtures[i].id == id }

  // ----- the code -----

  method SelectExpected(s: Suite, only: seq<Word>) returns (expected: seq<Fixture>)
    ensures expected == Expected(s.fixtures, only, |s.fixtures|)
  {
    expected := [];
    for i := 0 to |s.fixtures|
      invariant expected == Expected(s.fixtures, only, i)
    {
      if |only| == 0 || s.fixtures[i].id in only { expected := expected + [s.fixtures[i]]; }
    }
  }

  method GroupByID(results: seq<FixtureResult>) returns (byID: map<Word, seq<FixtureResult>>)
    ensures forall id :: (if id in byID then byID[id] else []) == ResultsFor(results, id)
  {
    byID := map[];
    for n := 0 to |results|
      invariant forall id :: (if id in byID then byID[id] else []) == Of(results, id, n)
    {
      var r := results[n];
      byID := byID[r.id := (if r.id in byID then byID[r.id] else []) + [r]];
    }
  }

  /** Ids named by the filter that the suite lacks, then ids of results that no
      expected fixture has. */
  method FindUnexpected(s: Suite, expected: seq<Fixture>, results: seq<FixtureResult>, only: seq<Word>)
    returns (unexpected: seq<Word>)
    ensures forall id :: id in unexpected <==>
              (id in only && !HasId(s.fixtures, id)) ||
              (!HasId(expected, id) && exists i :: 0 <= i < |results| && results[i].id == id)
  {
    unexpected := [];
    for i := 0 to |only|
      invariant forall id :: id in unexpected <==> id in only[..i] && !HasId(s.fixtures, id)
    {
      if !HasId(s.fixtures, only[i]) { unexpected := unexpected + [only[i]]; }
    }
    assert only[..|only|] == only;
    for n := 0 to |results|
      invariant forall id :: id in unexpected <==>
                  (id in only && !HasId(s.fixtures, id)) ||
                  (!HasId(expected, id) && exists i :: 0 <= i < n && results[i].id == id)
    {
      if !HasId(expected, results[n].id) && results[n].id !in unexpected {
        unexpected := unexpected + [results[n].id];
      }
    }
  }

  method TallyExpected(checkLeads: bool, expected: seq<Fixture>, results: seq<FixtureResult>,
                       byID: map<Word, seq<FixtureResult>>)
    returns (t: Tally)
    requires forall id :: (if id in byID then byID[id] else []) == ResultsFor(results, id)
    ensures t == Tallied(checkLeads, expected, results, |expected|)
  {
    t := Tally(0, 0, 0, 0, 0, [], [], []);
    for n := 0 to |expected|
      invariant t == Tallied(checkLeads, expected, results, n)
    {
      var f := expected[n];
      var got := if f.id in byID then byID[f.id] else [];
      if |got| == 0 {
        t := t.(missing := t.missing + [f.id]);
      } else if |got| == 1 {
        var o := ScoreFixture(f, checkLeads, got[0]);
        t := Count(t, o);
      } else {
        t := t.(repeated := t.repeated + [f.id]);
      }
    }
  }

  /** Score. */
  method Score(s: Suite, checkLeads: bool, results: seq<FixtureResult>, only: seq<Word>) returns (rep: Report)
    ensures rep.passed <==> Passes(s, checkLeads, results, only)
    ensures Reports(rep, s, checkLeads, results, only)
    ensures forall id :: id in rep.unexpected <==> IsUnexpected(s, results, only, id)
  {
    var expected := SelectExpected(s, only);
    var min := if |only| == 0 then s.minClassification else |expected|;
    var byID := GroupByID(results);
    var unexpected := FindUnexpected(s, expected, results, only);
    var t := TallyExpected(checkLeads, expected, results, byID);
    var extra := unexpected + t.repeated;
    var complete := |t.missing| == 0 && |extra| == 0;
    var passed := complete && t.classified >= min && t.terminal == |expected| && t.leaks == 0 && t.violations == 0 && t.wrong == 0;
    rep := Report(|expected|, min, t.classified, t.terminal, t.leaks, t.violations, t.wrong, t.missing, extra, t.outcomes, passed);
    forall id ensures id in rep.unexpected <==> IsUnexpected(s, results, only, id) {
      TallyLists(checkLeads, expected, results, |expected|, id);
      assert expected[..|expected|] == expected;
    }
    NothingUnexpected(s, results, only, unexpected);
    PassedIsExact(s, checkLeads, results, only);
  }

  // ----- what the verdict means -----

  function ExpectedOf(s: Suite, only: seq<Word>): seq<Fixture> { Expected(s.fixtures, only, |s.fixtures|) }

  /** Exactly one result carries the id. */
  predicate IsOnly(results: seq<FixtureResult>, id: Word, i: int, n: nat)
    requires n <= |results|
  {
    0 <= i < n && results[i].id == id && forall k :: 0 <= k < n && results[k].id == id ==> k == i
  }

  ghost predicate OneResult(results: seq<FixtureResult>, id: Word) {
    exists i :: IsOnly(results, id, i, |results|)
  }

  /** The four gates every single result must pass. */
  predicate Clean(f: Fixture, r: FixtureResult) {
    r.terminal && r.leaks == [] && !r.bindingViolation && forall i :: 0 <= i < |r.autoSends| ==> !WrongSend(f, r.autoSends[i])
  }

  predicate CorrectAt(checkLeads: bool, expected: seq<Fixture>, results: seq<FixtureResult>, j: int) {
    0 <= j < |expected| && exists i :: 0 <= i < |results| && results[i].id == expected[j].id && Correct(checkLeads, expected[j], results[i])
  }

  /** Each expected fixture has exactly one result, nothing else has any, the filter
      names only fixtures, every result is clean and enough are correct. */
  ghost predicate Passes(s: Suite, checkLeads: bool, results: seq<FixtureResult>, only: seq<Word>) {
    var expected := ExpectedOf(s, only);
    && (forall id :: id in only ==> HasId(s.fixtures, id))
    && (forall i :: 0 <= i < |results| ==> HasId(expected, results[i].id))
    && (forall j :: 0 <= j < |expected| ==> OneResult(results, expected[j].id))
    && (forall j, i :: 0 <= j < |expected| && 0 <= i < |results| && results[i].id == expected[j].id ==> Clean(expected[j], results[i]))
    && |set j | 0 <= j < |expected| && CorrectAt(checkLeads, expected, results, j)| >=
         if only == [] then s.minClassification else |expected|
  }

  /** The report's other fields. */
  predicate Reports(rep: Report, s: Suite, checkLeads: bool, results: seq<FixtureResult>, only: seq<Word>) {
    var expected := ExpectedOf(s, only);
    var t := Tallied(checkLeads, expected, results, |expected|);
    && rep.total == |expected| && rep.minClassification == (if only == [] then s.minClassification else |expected|)
    && rep.classified == t.classified && rep.terminal == t.terminal && rep.leaks == t.leaks
    && rep.bindingViolations == t.violations && rep.wrongAutoSends == t.wrong
    && rep.missing == t.missing && rep.outcomes == t.outcomes
  }

  /** An id the filter names without a fixture, or with a result but no expected
      fixture, or with more than one result. */
  ghost predicate IsUnexpected(s: Suite, results: seq<FixtureResult>, only: seq<Word>, id: Word) {
    || (id in only && !HasId(s.fixtures, id))
    || (!HasId(ExpectedOf(s, only), id) && exists i :: 0 <= i < |results| && results[i].id == id)
    || (HasId(ExpectedOf(s, only), id) && |ResultsFor(results, id)| > 1)
  }

  lemma {:induction false} OfIs(results: seq<FixtureResult>, id: Word, n: nat)
    requires n <= |results|
    ensures |Of(results, id, n)| == 0 <==> forall i :: 0 <= i < n ==> results[i].id != id
    ensures |Of(results, id, n)| == 1 <==> exists i :: IsOnly(results, id, i, n)
    ensures forall i :: IsOnly(results, id, i, n) ==> Of(results, id, n) == [results[i]]
  {
    if n > 0 {
      OfIs(results, id, n - 1);
      if results[n - 1].id == id {
        if |Of(results, id, n - 1)| == 0 {
          assert IsOnly(results, id, n - 1, n);
        }
      } else {
        var m := n - 1;
        if i :| IsOnly(results, id, i, m) {
          assert IsOnly(results, id, i, n);
        }
      }
    }
  }

  predicate Single(expected: seq<Fixture>, results: seq<FixtureResult>, j: int) {
    0 <= j < |expected| && |ResultsFor(results, expected[j].id)| == 1
  }

  function The(expected: seq<Fixture>, results: seq<FixtureResult>, j: int): FixtureResult
    requires Single(expected, results, j)
  {
    ResultsFor(results, expected[j].id)[0]
  }

  lemma {:induction false} TallyComplete(checkLeads: bool, expected: seq<Fixture>, results: seq<FixtureResult>, n: nat)
    requires n <= |expected|
    ensures var t := Tallied(checkLeads, expected, results, n);
            t.missing == [] && t.repeated == [] <==> forall j :: 0 <= j < n ==> Single(expected, results, j)
  {
    if n > 0 {
      TallyComplete(checkLeads, expected, results, n - 1);
      var t := Tallied(checkLeads, expected, results, n - 1);
      if !Single(expected, results, n - 1) {
        var f := expected[n - 1];
        assert |t.missing + [f.id]| > 0 && |t.repeated + [f.id]| > 0;
      }
    }
  }

  /** Which expected fixtures are classified correctly. */
  ghost function Right(checkLeads: bool, expected: seq<Fixture>, results: seq<FixtureResult>, n: nat): set<int>
    requires n <= |expected|
  {
    set j | 0 <= j < n && CorrectAt(checkLeads, expected, results, j)
  }

  predicate CleanAt(expected: seq<Fixture>, results: seq<FixtureResult>, j: int) {
    Single(expected, results, j) && Clean(expected[j], The(expected, results, j))
  }

  predicate GatesHold(t: Tally, n: nat) { t.terminal == n && t.leaks == 0 && t.violations == 0 && t.wrong == 0 }

  lemma TheIs(expected: seq<Fixture>, results: seq<FixtureResult>, j: nat)
    requires Single(expected, results, j)
    ensures exists i :: IsOnly(results, expected[j].id, i, |results|) && results[i] == The(expected, results, j)
  {
    OfIs(results, expected[j].id, |results|);
  }

  lemma CorrectAtThe(checkLeads: bool, expected: seq<Fixture>, results: seq<FixtureResult>, j: nat)
    requires Single(expected, results, j)
    ensures CorrectAt(checkLeads, expected, results, j) <==> Correct(checkLeads, expected[j], The(expected, results, j))
  {
    TheIs(expected, results, j);
    var i :| IsOnly(results, expected[j].id, i, |results|) && results[i] == The(expected, results, j);
  }

  lemma CountStep(p: int -> bool, n: nat)
    ensures |set j | 0 <= j < n + 1 && p(j)| == |set j | 0 <= j < n && p(j)| + if p(n) then 1 else 0
  {
    var before := set j | 0 <= j < n && p(j);
    assert (set j | 0 <= j < n + 1 && p(j)) == if p(n) then before + {n} else before;
  }

  lemma RightStep(checkLeads: bool, expected: seq<Fixture>, results: seq<FixtureResult>, n: nat)
    requires n < |expected|
    ensures |Right(checkLeads, expected, results, n + 1)|
         == |Right(checkLeads, expected, results, n)| + if CorrectAt(checkLeads, expected, results, n) then 1 else 0
  {
    var p := j => CorrectAt(checkLeads, expected, results, j);
    assert Right(checkLeads, expected, results, n) == set j | 0 <= j < n && p(j);
    assert Right(checkLeads, expected, results, n + 1) == set j | 0 <= j < n + 1 && p(j);
    CountStep(p, n);
  }

  lemma {:induction false} TallyRight(checkLeads: bool, expected: seq<Fixture>, results: seq<FixtureResult>, n: nat)
    requires n <= |expected| && forall j :: 0 <= j < n ==> Single(expected, results, j)
    ensures Tallied(checkLeads, expected, results, n).classified == |Right(checkLeads, expected, results, n)|
  {
    if n > 0 {
      TallyRight(checkLeads, expected, results, n - 1);
      assert Single(expected, results, n - 1);
      CorrectAtThe(checkLeads, expected, results, n - 1);
      RightStep(checkLeads, expected, results, n - 1);
    }
  }

  /** Whether the one result of expected fixture j meets p. */
  predicate At(expected: seq<Fixture>, results: seq<FixtureResult>, p: FixtureResult -> bool, j: int) {
    Single(expected, results, j) && p(The(expected, results, j))
  }

  ghost function Those(expected: seq<Fixture>, results: seq<FixtureResult>, p: FixtureResult -> bool, n: nat): set<int> {
    set j | 0 <= j < n && At(expected, results, p, j)
  }

  lemma ThoseStep(expected: seq<Fixture>, results: seq<FixtureResult>, p: FixtureResult -> bool, n: nat)
    ensures |Those(expected, results, p, n + 1)| == |Those(expected, results, p, n)| + if At(expected, results, p, n) then 1 else 0
  {
    var q := j => At(expected, results, p, j);
    assert Those(expected, results, p, n) == set j | 0 <= j < n && q(j);
    assert Those(expected, results, p, n + 1) == set j | 0 <= j < n + 1 && q(j);
    CountStep(q, n);
  }

  function IsTerminal(): FixtureResult -> bool { (r: FixtureResult) => r.terminal }

  function IsLeaky(): FixtureResult -> bool { (r: FixtureResult) => r.leaks != [] }

  function IsViolating(): FixtureResult -> bool { (r: FixtureResult) => r.bindingViolation }

  lemma TalliedStep(checkLeads: bool, expected: seq<Fixture>, results: seq<FixtureResult>, n: nat)
    requires n < |expected|
    ensures var t, t' := Tallied(checkLeads, expected, results, n), Tallied(checkLeads, expected, results, n + 1);
            && t'.terminal == t.terminal + (if At(expected, results, IsTerminal(), n) then 1 else 0)
            && t'.leaks == t.leaks + (if At(expected, results, IsLeaky(), n) then 1 else 0)
            && t'.violations == t.violations + (if At(expected, results, IsViolating(), n) then 1 else 0)
  {
  }

  /** A counter that goes up by one for each fixture that meets p. */
  ghost predicate Rises(expected: seq<Fixture>, results: seq<FixtureResult>, p: FixtureResult -> bool, counts: seq<nat>) {
    && |counts| > 0 && counts[0] == 0
    && forall m {:trigger counts[m]} :: 0 < m < |counts| ==>
         counts[m] == counts[m - 1] + (if At(expected, results, p, m - 1) then 1 else 0)
  }

  lemma {:induction false} RisesTo(expected: seq<Fixture>, results: seq<FixtureResult>, p: FixtureResult -> bool, counts: seq<nat>, n: nat)
    requires Rises(expected, results, p, counts) && n < |counts|
    ensures counts[n] == |Those(expected, results, p, n)|
  {
    if n > 0 {
      RisesTo(expected, results, p, counts, n - 1);
      ThoseStep(expected, results, p, n - 1);
    }
  }

  ghost function Tallies(checkLeads: bool, expected: seq<Fixture>, results: seq<FixtureResult>): (ts: seq<Tally>)
    ensures |ts| == |expected| + 1 && forall n :: 0 <= n <= |expected| ==> ts[n] == Tallied(checkLeads, expected, results, n)
  {
    seq(|expected| + 1, n requires 0 <= n <= |expected| => Tallied(checkLeads, expected, results, n))
  }

  /** What the counters of a report count: the expected fixtures whose one result is
      terminal, leaks, or violates its binding. */
  lemma CountersMean(checkLeads: bool, expected: seq<Fixture>, results: seq<FixtureResult>)
    ensures var t := Tallied(checkLeads, expected, results, |expected|);
            && t.terminal == |Those(expected, results, IsTerminal(), |expected|)|
            && t.leaks == |Those(expected, results, IsLeaky(), |expected|)|
            && t.violations == |Those(expected, results, IsViolating(), |expected|)|
  {
    var ts := Tallies(checkLeads, expected, results);
    var terminal := seq(|ts|, n requires 0 <= n < |ts| => ts[n].terminal);
    var leaks := seq(|ts|, n requires 0 <= n < |ts| => ts[n].leaks);
    var violations := seq(|ts|, n requires 0 <= n < |ts| => ts[n].violations);
    forall m | 0 < m < |ts|
      ensures terminal[m] == terminal[m - 1] + (if At(expected, results, IsTerminal(), m - 1) then 1 else 0)
      ensures leaks[m] == leaks[m - 1] + (if At(expected, results, IsLeaky(), m - 1) then 1 else 0)
      ensures violations[m] == violations[m - 1] + (if At(expected, results, IsViolating(), m - 1) then 1 else 0)
    {
      TalliedStep(checkLeads, expected, results, m - 1);
    }
    RisesTo(expected, results, IsTerminal(), terminal, |expected|);
    RisesTo(expected, results, IsLeaky(), leaks, |expected|);
    RisesTo(expected, results, IsViolating(), violations, |expected|);
  }

  lemma CountGates(t: Tally, checkLeads: bool, f: Fixture, r: FixtureResult, n: nat)
    requires t.terminal <= n
    ensures Count(t, Scored(checkLeads, f, r)).terminal <= n + 1
    ensures GatesHold(Count(t, Scored(checkLeads, f, r)), n + 1) <==> GatesHold(t, n) && Clean(f, r)
  {
  }

  lemma {:induction false} TallyGates(checkLeads: bool, expected: seq<Fixture>, results: seq<FixtureResult>, n: nat)
    requires n <= |expected| && forall j :: 0 <= j < n ==> Single(expected, results, j)
    ensures Tallied(checkLeads, expected, results, n).terminal <= n
    ensures GatesHold(Tallied(checkLeads, expected, results, n), n) <==> forall j :: 0 <= j < n ==> CleanAt(expected, results, j)
  {
    if n > 0 {
      TallyGates(checkLeads, expected, results, n - 1);
      assert Single(expected, results, n - 1);
      var t, r := Tallied(checkLeads, expected, results, n - 1), The(expected, results, n - 1);
      CountGates(t, checkLeads, expected[n - 1], r, n - 1);
      assert CleanAt(expected, results, n - 1) <==> Clean(expected[n - 1], r);
    }
  }

  /** Which ids are reported missing, and which repeated. */
  lemma {:induction false} TallyLists(checkLeads: bool, expected: seq<Fixture>, results: seq<FixtureResult>, n: nat, id: Word)
    requires n <= |expected|
    ensures var t := Tallied(checkLeads, expected, results, n);
            && (id in t.missing <==> HasId(expected[..n], id) && |ResultsFor(results, id)| == 0)
            && (id in t.repeated <==> HasId(expected[..n], id) && |ResultsFor(results, id)| > 1)
  {
    if n > 0 {
      TallyLists(checkLeads, expected, results, n - 1, id);
      HasIdStep(expected, n, id);
    }
  }

  lemma HasIdStep(fixtures: seq<Fixture>, n: nat, id: Word)
    requires 0 < n <= |fixtures|
    ensures HasId(fixtures[..n], id) <==> HasId(fixtures[..n - 1], id) || fixtures[n - 1].id == id
  {
    var s, t := fixtures[..n], fixtures[..n - 1];
    assert forall i :: 0 <= i < n - 1 ==> s[i] == t[i];
    assert s[n - 1] == fixtures[n - 1];
  }

  ghost predicate AllExpected(s: Suite, results: seq<FixtureResult>, only: seq<Word>) {
    && (forall id :: id in only ==> HasId(s.fixtures, id))
    && (forall i :: 0 <= i < |results| ==> HasId(ExpectedOf(s, only), results[i].id))
  }

  lemma PassedIsExact(s: Suite, checkLeads: bool, results: seq<FixtureResult>, only: seq<Word>)
    ensures var expected := ExpectedOf(s, only);
            var t := Tallied(checkLeads, expected, results, |expected|);
            Passes(s, checkLeads, results, only) <==>
              && AllExpected(s, results, only) && t.missing == [] && t.repeated == [] && GatesHold(t, |expected|)
              && t.classified >= if only == [] then s.minClassification else |expected|
  {
    var expected := ExpectedOf(s, only);
    TallyComplete(checkLeads, expected, results, |expected|);
    SingleIsOne(expected, results);
    if forall j :: 0 <= j < |expected| ==> Single(expected, results, j) {
      GatesAreExact(checkLeads, expected, results);
    }
  }

  lemma GatesAreExact(checkLeads: bool, expected: seq<Fixture>, results: seq<FixtureResult>)
    requires forall j :: 0 <= j < |expected| ==> Single(expected, results, j)
    ensures var t := Tallied(checkLeads, expected, results, |expected|);
            && t.classified == |set j | 0 <= j < |expected| && CorrectAt(checkLeads, expected, results, j)|
            && (GatesHold(t, |expected|) <==>
                forall j, i :: 0 <= j < |expected| && 0 <= i < |results| && results[i].id == expected[j].id ==>
                  Clean(expected[j], results[i]))
  {
    TallyGates(checkLeads, expected, results, |expected|);
    TallyRight(checkLeads, expected, results, |expected|);
    CleanIsClean(expected, results);
    assert Right(checkLeads, expected, results, |expected|) == set j | 0 <= j < |expected| && CorrectAt(checkLeads, expected, results, j);
  }

  lemma NothingUnexpected(s: Suite, results: seq<FixtureResult>, only: seq<Word>, unexpected: seq<Word>)
    requires var expected := ExpectedOf(s, only);
             forall id :: id in unexpected <==>
               (id in only && !HasId(s.fixtures, id)) ||
               (!HasId(expected, id) && exists i :: 0 <= i < |results| && results[i].id == id)
    ensures unexpected == [] <==> AllExpected(s, results, only)
  {
    if unexpected != [] {
      assert unexpected[0] in unexpected;
    }
  }

  lemma SingleIsOne(expected: seq<Fixture>, results: seq<FixtureResult>)
    ensures forall j :: 0 <= j < |expected| ==> (Single(expected, results, j) <==> OneResult(results, expected[j].id))
  {
    forall j | 0 <= j < |expected| ensures Single(expected, results, j) <==> OneResult(results, expected[j].id) {
      OfIs(results, expected[j].id, |results|);
    }
  }

  lemma CleanIsClean(expected: seq<Fixture>, results: seq<FixtureResult>)
    requires forall j :: 0 <= j < |expected| ==> Single(expected, results, j)
    ensures (forall j :: 0 <= j < |expected| ==> CleanAt(expected, results, j)) <==>
            (forall j, i :: 0 <= j < |expected| && 0 <= i < |results| && results[i].id == expected[j].id ==>
                Clean(expected[j], results[i]))
  {
    forall j | 0 <= j < |expected|
      ensures CleanAt(expected, results, j) <==>
              forall i :: 0 <= i < |results| && results[i].id == expected[j].id ==> Clean(expected[j], results[i])
    {
      TheIs(expected, results, j);
      var i :| IsOnly(results, expected[j].id, i, |results|) && results[i] == The(expected, results, j);
    }
  }

  // ----- the order of the results is immaterial -----

  lemma {:induction false} OfMultiset(results: seq<FixtureResult>, id: Word, n: nat, x: FixtureResult)
    requires n <= |results|
    ensures multiset(Of(results, id, n))[x] == if x.id == id then multiset(results[..n])[x] else 0
  {
    if n > 0 {
      OfMultiset(results, id, n - 1, x);
      assert results[..n] == results[..n - 1] + [results[n - 1]];
    }
  }

  lemma OfPermuted(results: seq<FixtureResult>, permuted: seq<FixtureResult>, id: Word)
    requires multiset(results) == multiset(permuted)
    ensures multiset(ResultsFor(results, id)) == multiset(ResultsFor(permuted, id))
  {
    assert results[..|results|] == results && permuted[..|permuted|] == permuted;
    forall x ensures multiset(ResultsFor(results, id))[x] == multiset(ResultsFor(permuted, id))[x] {
      OfMultiset(results, id, |results|, x);
      OfMultiset(permuted, id, |permuted|, x);
    }
  }

  lemma SingletonsEqual<T>(s: seq<T>, t: seq<T>)
    requires multiset(s) == multiset(t)
    ensures |s| == |t| && (|s| == 1 ==> s[0] == t[0])
  {
    assert |multiset(s)| == |s| && |multiset(t)| == |t|;
    if |s| == 1 {
      assert s[0] in multiset(s);
      assert s[0] in t;
    }
  }

  /** Every count, the missing and repeated fixtures and the outcomes are the same
      for any order of the same results. */
  lemma {:induction false} TallyPermuted(checkLeads: bool, expected: seq<Fixture>, results: seq<FixtureResult>,
                                         permuted: seq<FixtureResult>, n: nat)
    requires n <= |expected| && multiset(results) == multiset(permuted)
    ensures Tallied(checkLeads, expected, results, n) == Tallied(checkLeads, expected, permuted, n)
  {
    if n > 0 {
      TallyPermuted(checkLeads, expected, results, permuted, n - 1);
      OfPermuted(results, permuted, expected[n - 1].id);
      SingletonsEqual(ResultsFor(results, expected[n - 1].id), ResultsFor(permuted, expected[n - 1].id));
    }
  }

  lemma AllExpectedPermuted(s: Suite, results: seq<FixtureResult>, permuted: seq<FixtureResult>, only: seq<Word>)
    requires multiset(results) == multiset(permuted) && AllExpected(s, results, only)
    ensures AllExpected(s, permuted, only)
  {
    forall i | 0 <= i < |permuted| ensures HasId(ExpectedOf(s, only), permuted[i].id) {
      assert permuted[i] in multiset(permuted);
      assert permuted[i] in results;
    }
  }

  /** And so is the verdict. */
  lemma ScoreIsOrderIndependent(s: Suite, checkLeads: bool, results: seq<FixtureResult>, permuted: seq<FixtureResult>, only: seq<Word>)
    requires multiset(results) == multiset(permuted)
    ensures Passes(s, checkLeads, results, only) <==> Passes(s, checkLeads, permuted, only)
    ensures forall rep :: Reports(rep, s, checkLeads, results, only) <==> Reports(rep, s, checkLeads, permuted, only)
  {
    var expected := ExpectedOf(s, only);
    TallyPermuted(checkLeads, expected, results, permuted, |expected|);
    PassedIsExact(s, checkLeads, results, only);
    PassedIsExact(s, checkLeads, permuted, only);
    if AllExpected(s, results, only) { AllExpectedPermuted(s, results, permuted, only); }
    if AllExpected(s, permuted, only) { AllExpectedPermuted(s, permuted, results, only); }
  }

  // ----- scoring what the harness recorded -----

  predicate DistinctIds(fixtures: seq<Fixture>) {
    forall i, j :: 0 <= i < j < |fixtures| ==> fixtures[i].id != fixtures[j].id
  }

  lemma FinishedIsComplete(tg: Target, su: Conformance.Setup, s: Suite, only: seq<Word>, h: Conformance.State)
    requires Conformance.Inv(su, ExpectedOf(s, only), h) && DistinctIds(ExpectedOf(s, only))
    requires h.queue == [] && forall i :: 0 <= i < |h.claimed| ==> Terminal(h.claimed[i].task)
    ensures var results, expected := Conformance.ResultsOf(tg, h.claimed), ExpectedOf(s, only);
            && (forall j :: 0 <= j < |expected| ==> OneResult(results, expected[j].id))
            && (forall i :: 0 <= i < |results| ==> HasId(expected, results[i].id) && results[i].terminal)
  {
    var results, expected := Conformance.ResultsOf(tg, h.claimed), ExpectedOf(s, only);
    assert |results| == |expected|;
    assert forall i :: 0 <= i < |results| ==> results[i].id == expected[i].id;
    forall j | 0 <= j < |expected| ensures OneResult(results, expected[j].id) {
      assert IsOnly(results, expected[j].id, j, |results|);
    }
  }

  /** However the requests of the workers interleaved, once the harness over the
      expected fixtures was finished at some point of a run, the results at that and
      at every later point are one for each fixture, every one terminal: the verdict
      rests on classification, leaks, violations and auto-sends alone. */
  lemma FinishedRunIsComplete(tg: Target, h: Interleaved.Handler, s: Suite, only: seq<Word>,
                              ws: seq<Interleaved.World>, steps: seq<Interleaved.Turn>, a: nat, j: nat)
    requires Interleaved.GoodHandler(h) && Interleaved.IsRun(h, ws, steps) && Interleaved.TokensFresh(h.su, ws, steps)
    requires ws[0].s == Conformance.Start(ExpectedOf(s, only)) && DistinctIds(ExpectedOf(s, only)) && a <= j < |ws|
    requires ws[a].s.queue == [] && forall i :: 0 <= i < |ws[a].s.claimed| ==> Terminal(ws[a].s.claimed[i].task)
    ensures var results, expected := Conformance.ResultsOf(tg, ws[j].s.claimed), ExpectedOf(s, only);
            && (forall n :: 0 <= n < |expected| ==> OneResult(results, expected[n].id))
            && (forall i :: 0 <= i < |results| ==> HasId(expected, results[i].id) && results[i].terminal)
  {
    var expected := ExpectedOf(s, only);
    Interleaved.AlwaysConsistent(h, expected, ws, steps, a);
    Interleaved.AlwaysConsistent(h, expected, ws, steps, j);
    StillFinished(h, expected, ws, steps, a, j);
    FinishedIsComplete(tg, h.su, s, only, ws[j].s);
  }

  lemma StillFinished(h: Interleaved.Handler, expected: seq<Fixture>, ws: seq<Interleaved.World>, steps: seq<Interleaved.Turn>, a: nat, j: nat)
    requires Interleaved.GoodHandler(h) && Interleaved.IsRun(h, ws, steps) && a <= j < |ws|
    requires Conformance.Conserves(expected, ws[a].s) && Conformance.Conserves(expected, ws[j].s)
    requires ws[a].s.queue == [] && forall i :: 0 <= i < |ws[a].s.claimed| ==> Terminal(ws[a].s.claimed[i].task)
    ensures ws[j].s.queue == [] && forall i :: 0 <= i < |ws[j].s.claimed| ==> Terminal(ws[j].s.claimed[i].task)
  {
    assert |ws[a].s.claimed| == |expected|;
    forall i | 0 <= i < |expected| ensures i < |ws[j].s.claimed| && Terminal(ws[j].s.claimed[i].task) {
      Interleaved.FixturesOnlyGrow(h, ws, steps, a, i, j);
    }
    if |expected| > 0 { Interleaved.FixturesOnlyGrow(h, ws, steps, a, |expected| - 1, j); }
  }
}
