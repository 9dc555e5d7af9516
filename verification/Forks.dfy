/** Private forks: a fork may only narrow the catalog version it names as its
    base (ValidateFork, internal/assistant/fork.go). */
module Forks {
  import opened Wrappers
  import opened Assistants
  import Text
  import Tools

  const MAX_FORK_INSTRUCTIONS_BYTES := 16 * 1024

  // ----- the owner_notes delimiter: (?i)<\s*/?\s*owner_notes -----

  predicate IsSpace(c: char) { c == ' ' || c == '\t' || c == '\n' || c == '\r' || c == '\U{0C}' }

  function Lower(c: char): char {
    if 'A' <= c <= 'Z' then c - 'A' + 'a' else if c == '\U{17F}' then 's' else c
  }

  function SkipSpaces(s: string, i: nat): (k: nat)
    requires i <= |s|
    ensures i <= k <= |s|
    decreases |s| - i
  {
    if i < |s| && IsSpace(s[i]) then SkipSpaces(s, i + 1) else i
  }

  const DELIMITER := "owner_notes"

  function SkipSlash(s: string, a: nat): (b: nat)
    requires a <= |s|
    ensures a <= b <= |s|
  {
    if a < |s| && s[a] == '/' then SkipSpaces(s, a + 1) else a
  }

  predicate LowersTo(s: string, b: nat, word: string) {
    b + |word| <= |s| && forall k :: 0 <= k < |word| ==> Lower(s[b + k]) == word[k]
  }

  predicate DelimiterAt(s: string, i: nat)
    requires i < |s|
  {
    s[i] == '<' && LowersTo(s, SkipSlash(s, SkipSpaces(s, i + 1)), DELIMITER)
  }

  predicate HasDelimiter(s: string) {
    exists i :: 0 <= i < |s| && DelimiterAt(s, i)
  }

  predicate Spaces(s: string, lo: nat, hi: nat) { lo <= hi <= |s| && forall k :: lo <= k < hi ==> IsSpace(s[k]) }

  /** The letter in either case; the long s folds to an s. */
  predicate FoldsTo(c: char, w: char) {
    c == w || ('a' <= w <= 'z' && 'A' <= c <= 'Z' && c - 'A' == w - 'a') || (w == 's' && c == '\U{17F}')
  }

  predicate ReadsWord(s: string, b: nat, word: string) {
    b + |word| <= |s| && forall k :: 0 <= k < |word| ==> FoldsTo(s[b + k], word[k])
  }

  /** The pattern matched at i, wherever its stretches of space may end: at a, and
      after a slash at b. */
  predicate Matches(s: string, i: nat, a: nat, b: nat) {
    && i < |s| && s[i] == '<' && Spaces(s, i + 1, a)
    && (b == a || (a < |s| && s[a] == '/' && Spaces(s, a + 1, b)))
    && ReadsWord(s, b, "owner_notes")
  }

  lemma {:induction false} SkipsSpaces(s: string, i: nat)
    requires i <= |s|
    ensures Spaces(s, i, SkipSpaces(s, i))
    decreases |s| - i
  {
    if i < |s| && IsSpace(s[i]) { SkipsSpaces(s, i + 1); }
  }

  lemma {:induction false} SkipsTo(s: string, i: nat, a: nat)
    requires Spaces(s, i, a) && a < |s| && !IsSpace(s[a])
    ensures SkipSpaces(s, i) == a
    decreases |s| - i
  {
    if i < a { SkipsTo(s, i + 1, a); }
  }

  lemma LowerFolds(c: char, w: char)
    requires w == '_' || 'a' <= w <= 'z'
    ensures Lower(c) == w <==> FoldsTo(c, w)
  {
  }

  lemma WordFolds(s: string, b: nat, word: string)
    requires forall k :: 0 <= k < |word| ==> word[k] == '_' || 'a' <= word[k] <= 'z'
    ensures LowersTo(s, b, word) <==> ReadsWord(s, b, word)
  {
    if b + |word| <= |s| {
      forall k | 0 <= k < |word| ensures Lower(s[b + k]) == word[k] <==> FoldsTo(s[b + k], word[k]) { LowerFolds(s[b + k], word[k]); }
    }
  }

  lemma MatchIsFound(s: string, i: nat, a: nat, b: nat)
    requires Matches(s, i, a, b)
    ensures DelimiterAt(s, i)
  {
    WordFolds(s, b, DELIMITER);
    assert FoldsTo(s[b + 0], DELIMITER[0]);
    SkipsTo(s, i + 1, a);
    if b != a { SkipsTo(s, a + 1, b); }
  }

  lemma FoundMatches(s: string, i: nat) returns (a: nat, b: nat)
    requires i < |s| && DelimiterAt(s, i)
    ensures Matches(s, i, a, b)
  {
    a := SkipSpaces(s, i + 1);
    b := SkipSlash(s, a);
    SkipsSpaces(s, i + 1);
    if b != a { SkipsSpaces(s, a + 1); }
    WordFolds(s, b, DELIMITER);
  }

  /** Skipping spaces greedily finds a delimiter exactly where the pattern matches at all. */
  lemma DelimiterMeans(s: string)
    ensures HasDelimiter(s) <==> exists i, a, b :: Matches(s, i, a, b)
  {
    if HasDelimiter(s) {
      var i :| 0 <= i < |s| && DelimiterAt(s, i);
      var a, b := FoundMatches(s, i);
    }
    if i, a, b :| Matches(s, i, a, b) {
      MatchIsFound(s, i, a, b);
    }
  }

  // ----- what narrowing means -----

  predicate NewIntentOk(f: Intent) { f.tier != Auto && OverrideRank(f.userOverride) >= OverrideRank(Tighten) }

  predicate Stricter(b: Intent, f: Intent) {
    TierRank(f.tier) >= TierRank(b.tier) && OverrideRank(f.userOverride) >= OverrideRank(b.userOverride)
    && f.description == b.description
  }

  predicate IntentOk(base: seq<Intent>, f: Intent) {
    && ((forall k :: 0 <= k < |base| ==> base[k].name != f.name) ==> NewIntentOk(f))
    && (forall k :: 0 <= k < |base| && base[k].name == f.name ==> Stricter(base[k], f))
  }

  predicate IntentsNarrow(base: seq<Intent>, fork: seq<Intent>) {
    && (forall k :: 0 <= k < |fork| ==> IntentOk(base, fork[k]))
    && (forall k :: 0 <= k < |base| && base[k].tier == Never ==> Declares(fork, base[k].name))
  }

  predicate VariableNarrows(b: Variable, f: Variable) {
    && f.(disclosure := None) == b.(disclosure := None)
    && (b.send == NoSend ==> LevelRank(DisclosureFloor(f)) >= LevelRank(DisclosureFloor(b)))
  }

  predicate VariablesNarrow(base: seq<Variable>, fork: seq<Variable>) {
    |fork| == |base| && forall k :: 0 <= k < |fork| ==> VariableNarrows(base[k], fork[k])
  }

  predicate NamesBase(base: Entry, fork: Entry) {
    fork.def.metadata.fork == Some(ForkRef(base.def.metadata.name, base.def.metadata.version, base.digest))
  }

  predicate Inherits(b: Definition, f: Definition) {
    && f.apiVersion == b.apiVersion && f.metadata.tags == b.metadata.tags
    && f.metadata.examples == b.metadata.examples && f.records == b.records
    && f.escalation == b.escalation && f.execution == b.execution && f.defaults.mode == b.defaults.mode
  }

  predicate Narrows(base: Entry, fork: Entry) {
    var b, f := base.def, fork.def;
    && NamesBase(base, fork) && f.metadata.status == Active
    && Text.Utf8Length(f.instructions) <= MAX_FORK_INSTRUCTIONS_BYTES && !HasDelimiter(f.instructions)
    && IntentsNarrow(b.intents, f.intents)
    && Tools.Resolvable(b.tools) && Tools.Resolvable(f.tools)
    && Tools.CanonicalNames(f.tools) <= Tools.CanonicalNames(b.tools)
    && Within(f.defaults.limits, b.defaults.ceilings) && Within(f.defaults.ceilings, b.defaults.ceilings)
    && (b.defaults.disclosureRequired ==> f.defaults.disclosureRequired)
    && f.defaults.disclosureText == b.defaults.disclosureText
    && VariablesNarrow(b.variables, f.variables)
    && Inherits(b, f)
  }

  // ----- ValidateFork -----

  method CheckIntents(base: seq<Intent>, fork: seq<Intent>) returns (ok: bool)
    requires UniqueIntents(base)
    ensures ok <==> IntentsNarrow(base, fork)
  {
    var baseIntents: map<string, Intent> := map[];
    for k := 0 to |base|
      invariant forall i :: 0 <= i < k ==> base[i].name in baseIntents && baseIntents[base[i].name] == base[i]
      invariant forall name :: name in baseIntents ==> exists i :: 0 <= i < k && base[i] == baseIntents[name] && base[i].name == name
    {
      baseIntents := baseIntents[base[k].name := base[k]];
    }
    var forkIntents: set<string> := {};
    for k := 0 to |fork|
      invariant forkIntents == set i | 0 <= i < k :: fork[i].name
      invariant forall i :: 0 <= i < k ==> IntentOk(base, fork[i])
    {
      var f := fork[k];
      forkIntents := forkIntents + {f.name};
      if f.name !in baseIntents {
        if f.tier == Auto { return false; }
        if OverrideRank(f.userOverride) < OverrideRank(Tighten) { return false; }
      } else {
        var was := baseIntents[f.name];
        if TierRank(f.tier) < TierRank(was.tier) { return false; }
        if OverrideRank(f.userOverride) < OverrideRank(was.userOverride) { return false; }
        if f.description != was.description { return false; }
      }
    }
    for k := 0 to |base|
      invariant forall i :: 0 <= i < k && base[i].tier == Never ==> Declares(fork, base[i].name)
    {
      if base[k].tier == Never && base[k].name !in forkIntents { return false; }
    }
    ok := true;
  }

  method CheckVariables(base: seq<Variable>, fork: seq<Variable>) returns (ok: bool)
    ensures ok <==> VariablesNarrow(base, fork)
  {
    if |fork| != |base| { return false; }
    for k := 0 to |fork|
      invariant forall i :: 0 <= i < k ==> VariableNarrows(base[i], fork[i])
    {
      if fork[k].(disclosure := None) != base[k].(disclosure := None) { return false; }
      if base[k].send == NoSend && LevelRank(DisclosureFloor(fork[k])) < LevelRank(DisclosureFloor(base[k])) {
        return false;
      }
    }
    ok := true;
  }

  method CheckTools(base: seq<string>, fork: seq<string>) returns (ok: bool)
    ensures ok <==> Tools.Resolvable(base) && Tools.Resolvable(fork) &&
                    Tools.CanonicalNames(fork) <= Tools.CanonicalNames(base)
  {
    var bt := Tools.Resolve(base);
    if bt.None? { return false; }
    var ft := Tools.Resolve(fork);
    if ft.None? { return false; }
    for k := 0 to |ft.value|
      invariant forall i :: 0 <= i < k ==> ft.value[i] in bt.value
    {
      if ft.value[k] !in bt.value {
        assert ft.value[k] in Tools.CanonicalNames(fork);
        return false;
      }
    }
    ok := true;
  }

  method ValidateFork(base: Entry, fork: Entry) returns (ok: bool)
    requires WellFormed(base.def) && WellFormed(fork.def)
    ensures ok <==> Narrows(base, fork)
  {
    var b, f := base.def, fork.def;
    if f.metadata.fork.None? { return false; }
    var ref := f.metadata.fork.value;
    if ref.name != b.metadata.name || ref.version != b.metadata.version || ref.digest != base.digest { return false; }
    if f.metadata.status != Active { return false; }
    if Text.Utf8Length(f.instructions) > MAX_FORK_INSTRUCTIONS_BYTES { return false; }
    if HasDelimiter(f.instructions) { return false; }
    var intents := CheckIntents(b.intents, f.intents);
    if !intents { return false; }
    var tools := CheckTools(b.tools, f.tools);
    if !tools { return false; }
    if !Within(f.defaults.limits, b.defaults.ceilings) { return false; }
    if !Within(f.defaults.ceilings, b.defaults.ceilings) { return false; }
    if b.defaults.disclosureRequired && !f.defaults.disclosureRequired { return false; }
    if f.defaults.disclosureText != b.defaults.disclosureText { return false; }
    var variables := CheckVariables(b.variables, f.variables);
    if !variables { return false; }
    ok := Inherits(b, f);
  }
}

/** The install an evaluation run uses (suiteInstall, internal/agenteval/target.go). */
module EvalTarget {
  import opened Assistants
  import opened Installs

  /** The tier overrides of the suite's install: auto for every intent an install
      may loosen that is not auto already. */
  function Loosest(intents: seq<Intent>): map<string, Tier> {
    map k | 0 <= k < |intents| && intents[k].userOverride == Any && intents[k].tier != Auto :: intents[k].name := Auto
  }

  method SuiteTiers(intents: seq<Intent>) returns (loosest: map<string, Tier>)
    ensures loosest == Loosest(intents)
  {
    loosest := map[];
    for k := 0 to |intents|
      invariant forall name :: name in loosest <==>
                  exists i :: 0 <= i < k && intents[i].userOverride == Any && intents[i].tier != Auto && intents[i].name == name
      invariant forall name :: name in loosest ==> loosest[name] == Auto
    {
      if intents[k].userOverride == Any && intents[k].tier != Auto {
        loosest := loosest[intents[k].name := Auto];
      }
    }
  }

  /** What an intent resolves to in the suite's install. */
  lemma LoosestTier(intents: seq<Intent>, k: nat)
    requires UniqueIntents(intents) && k < |intents|
    ensures EffectiveTier(intents[k], Loosest(intents)) ==
            if intents[k].userOverride == Any then Auto else intents[k].tier
  {
    if intents[k].name in Loosest(intents) {
      var i :| 0 <= i < |intents| && intents[i].userOverride == Any && intents[i].tier != Auto && intents[i].name == intents[k].name;
      assert i == k;
    } else {
      assert !(intents[k].userOverride == Any && intents[k].tier != Auto);
    }
  }

  /** The suite's install is accepted and is the loosest of all accepted ones: its
      allowlist contains every other, and its denylist is contained in every other. */
  lemma SuiteIsLoosest(intents: seq<Intent>, tiers: map<string, Tier>, name: string)
    requires UniqueIntents(intents) && TiersAccepted(intents, tiers)
    ensures TiersAccepted(intents, Loosest(intents))
    ensures name in At(intents, tiers, Auto) ==> name in At(intents, Loosest(intents), Auto)
    ensures name in At(intents, Loosest(intents), Never) ==> name in At(intents, tiers, Never)
  {
    var loosest := Loosest(intents);
    forall n | n in loosest ensures Declares(intents, n) {}
    forall k | 0 <= k < |intents| ensures TierAllowed(intents[k], EffectiveTier(intents[k], loosest)) {
      LoosestTier(intents, k);
    }
    AtMembers(intents, tiers, Auto, name);
    AtMembers(intents, tiers, Never, name);
    AtMembers(intents, loosest, Auto, name);
    AtMembers(intents, loosest, Never, name);
    forall k | 0 <= k < |intents| && intents[k].name == name
      ensures EffectiveTier(intents[k], tiers) == Auto ==> EffectiveTier(intents[k], loosest) == Auto
      ensures EffectiveTier(intents[k], loosest) == Never ==> EffectiveTier(intents[k], tiers) == Never
    {
      LoosestTier(intents, k);
      assert TierAllowed(intents[k], EffectiveTier(intents[k], tiers));
    }
  }
}

/** No authority gain: what no single function says, an install of a valid fork
    can do nothing its base's author did not already allow. */
module Authority {
  import opened Wrappers
  import opened Assistants
  import opened Installs
  import opened Forks
  import opened EvalTarget
  import Text
  import Tools

  // ----- intents -----

  /** One accepted install of the base, the suite's, auto-sends everything any
      accepted install of any valid fork auto-sends. */
  lemma AllowlistWithinBase(b: seq<Intent>, f: seq<Intent>, tiers: map<string, Tier>, name: string)
    requires UniqueIntents(b) && UniqueIntents(f) && IntentsNarrow(b, f)
    requires TiersAccepted(f, tiers) && name in At(f, tiers, Auto)
    ensures TiersAccepted(b, Loosest(b)) && name in At(b, Loosest(b), Auto)
  {
    SuiteIsLoosest(b, Loosest(b), name) by { DefaultsOrLoosest(b); }
    AtMembers(f, tiers, Auto, name);
    var k :| 0 <= k < |f| && f[k].name == name && EffectiveTier(f[k], tiers) == Auto;
    var i := AutoInBase(b, f[k]) by { assert TierAllowed(f[k], EffectiveTier(f[k], tiers)); }
    LoosestTier(b, i);
    AtMembers(b, Loosest(b), Auto, name);
  }

  /** An intent a valid fork may auto-send is one the base may. */
  lemma AutoInBase(b: seq<Intent>, f: Intent) returns (i: nat)
    requires IntentOk(b, f) && TierAllowed(f, Auto)
    ensures i < |b| && b[i].name == f.name && (b[i].tier == Auto || b[i].userOverride == Any)
  {
    assert !NewIntentOk(f);
    i :| 0 <= i < |b| && b[i].name == f.name;
    assert Stricter(b[i], f);
  }

  lemma DefaultsOrLoosest(b: seq<Intent>)
    requires UniqueIntents(b)
    ensures TiersAccepted(b, map[]) && TiersAccepted(b, Loosest(b))
  {
    SuiteIsLoosest(b, map[], "");
  }

  /** A never intent that no install may loosen is refused in every accepted
      install of every valid fork, and only such an intent is: any other base
      intent is off the denylist of some accepted install of the base. */
  lemma NeverStaysNever(b: seq<Intent>, f: seq<Intent>, tiers: map<string, Tier>, i: nat)
    requires UniqueIntents(b) && UniqueIntents(f) && IntentsNarrow(b, f) && TiersAccepted(f, tiers) && i < |b|
    ensures b[i].tier == Never && b[i].userOverride != Any ==> b[i].name in At(f, tiers, Never)
    ensures !(b[i].tier == Never && b[i].userOverride != Any) ==>
              TiersAccepted(b, Loosest(b)) && b[i].name !in At(b, Loosest(b), Never)
  {
    if b[i].tier == Never && b[i].userOverride != Any {
      var k :| 0 <= k < |f| && f[k].name == b[i].name;
      assert IntentOk(b, f[k]);
      assert Stricter(b[i], f[k]) && TierAllowed(f[k], EffectiveTier(f[k], tiers));
      AtMembers(f, tiers, Never, b[i].name);
    } else {
      DefaultsOrLoosest(b);
      AtMembers(b, Loosest(b), Never, b[i].name);
      LoosestTier(b, i);
    }
  }

  // ----- variables -----

  /** Where each stored field came from: one variable's value, unchanged, and the
      level it is stored under. */
  lemma FieldOrigin(vars: seq<Variable>, install: Install, p: Path)
    requires UniqueVariables(vars) && p in Owner(vars, install).fields
    ensures exists k :: 0 <= k < |vars| && vars[k].path == p && !IsRestricted(vars[k]) && vars[k].name in install.values &&
              Owner(vars, install).fields[p] == install.values[vars[k].name] &&
              StoredLevel(vars[k], install.levels) ==
                (if p in Owner(vars, install).disclosure then Some(Owner(vars, install).disclosure[p]) else None)
  {
    OwnerMeans(vars, install);
    var k :| 0 <= k < |vars| && vars[k].path == p && vars[k].name in install.values;
    assert StoredAs(vars[k], install, Owner(vars, install));
  }

  lemma {:induction false} RestrictedOrigin(vars: seq<Variable>, install: Install, key: string)
    requires key in Owner(vars, install).restricted
    ensures exists k :: 0 <= k < |vars| && vars[k].path == Field(Restricted, key) && vars[k].name in install.values &&
              Owner(vars, install).restricted[key] ==
                RestrictedField(install.values[vars[k].name], vars[k].send == OnApproval, vars[k].send == NeverSend)
  {
    var front, last := vars[..|vars| - 1], vars[|vars| - 1];
    if IsRestricted(last) && last.name in install.values && last.path.key == key {
      assert vars[|vars| - 1].path == Field(Restricted, key);
    } else {
      RestrictedOrigin(front, install, key);
      var k :| 0 <= k < |front| && front[k].path == Field(Restricted, key) && front[k].name in install.values &&
        Owner(front, install).restricted[key] ==
          RestrictedField(install.values[front[k].name], front[k].send == OnApproval, front[k].send == NeverSend);
      assert vars[k] == front[k];
    }
  }

  /** The level the runtime applies to a stored field. */
  function AppliedLevel(o: OwnerProfile, p: Path): Level {
    if p in o.disclosure then o.disclosure[p] else DefaultLevel(p)
  }

  /** The level an accepted install stores for a fork's variable, or leaves to the
      default, is at least the base variable's floor. */
  lemma StoredWithinBase(b: Variable, f: Variable, levels: map<string, Level>)
    requires VariableNarrows(b, f) && VariableOk(b) && !IsRestricted(f)
    requires f.name in levels ==> LevelAllowed(f, levels[f.name])
    ensures b.path == f.path
    ensures var stored := StoredLevel(f, levels);
            LevelRank(if stored.Some? then stored.value else DefaultLevel(f.path)) >= LevelRank(DisclosureFloor(b))
  {
    assert f.(disclosure := None).path == b.(disclosure := None).path;
  }

  /** Every field an accepted install of a valid fork stores is one of the base's
      variables, shown to nobody the base's floor would hide it from. */
  lemma DisclosureWithinBase(b: seq<Variable>, f: seq<Variable>, install: Install, p: Path)
    requires UniqueVariables(f) && (forall k :: 0 <= k < |b| ==> VariableOk(b[k]))
    requires VariablesNarrow(b, f) && ValuesAccepted(f, install) && p in Owner(f, install).fields
    ensures exists k :: 0 <= k < |b| && b[k].path == p &&
              LevelRank(AppliedLevel(Owner(f, install), p)) >= LevelRank(DisclosureFloor(b[k]))
  {
    FieldOrigin(f, install, p);
    var o := Owner(f, install);
    var k :| 0 <= k < |f| && f[k].path == p && !IsRestricted(f[k]) && f[k].name in install.values &&
      StoredLevel(f[k], install.levels) == (if p in o.disclosure then Some(o.disclosure[p]) else None);
    StoredWithinBase(b[k], f[k], install.levels);
    assert b[k].path == p;
  }

  /** A restricted field keeps the base's send rule. */
  lemma RestrictedAsBase(b: seq<Variable>, f: seq<Variable>, install: Install, key: string)
    requires VariablesNarrow(b, f) && key in Owner(f, install).restricted
    ensures exists k :: 0 <= k < |b| && b[k].path == Field(Restricted, key) &&
              Owner(f, install).restricted[key].approvalRequired == (b[k].send == OnApproval) &&
              Owner(f, install).restricted[key].neverAutoSend == (b[k].send == NeverSend)
  {
    RestrictedOrigin(f, install, key);
    var k :| 0 <= k < |f| && f[k].path == Field(Restricted, key) && f[k].name in install.values &&
      Owner(f, install).restricted[key] ==
        RestrictedField(install.values[f[k].name], f[k].send == OnApproval, f[k].send == NeverSend);
    assert VariableNarrows(b[k], f[k]);
    assert f[k].(disclosure := None).path == b[k].(disclosure := None).path;
    assert f[k].(disclosure := None).send == b[k].(disclosure := None).send;
  }

  /** Whatever it may tell, the base would tell as well. */
  lemma TellsNoMore(b: seq<Variable>, f: seq<Variable>, install: Install, p: Path, engaged: bool)
    requires UniqueVariables(f) && (forall k :: 0 <= k < |b| ==> VariableOk(b[k]))
    requires VariablesNarrow(b, f) && ValuesAccepted(f, install) && p in Owner(f, install).fields
    requires Told(AppliedLevel(Owner(f, install), p), engaged)
    ensures exists k :: 0 <= k < |b| && b[k].path == p && Told(DisclosureFloor(b[k]), engaged)
  {
    DisclosureWithinBase(b, f, install, p);
    var k :| 0 <= k < |b| && b[k].path == p && LevelRank(AppliedLevel(Owner(f, install), p)) >= LevelRank(DisclosureFloor(b[k]));
    RankIsSecrecy(DisclosureFloor(b[k]), AppliedLevel(Owner(f, install), p));
  }

  // ----- the theorem -----

  /** Every limit on what the profile lets the agent do, in the base's terms. */
  ghost predicate WithinBase(base: Definition, fork: Definition, p: Profile) {
    && (forall name :: name in p.allow ==> name in At(base.intents, Loosest(base.intents), Auto))
    && (forall i :: 0 <= i < |base.intents| && base.intents[i].tier == Never && base.intents[i].userOverride != Any ==>
          base.intents[i].name in p.deny)
    && Within(p.limits, base.defaults.ceilings)
    && Tools.CanonicalNames(fork.tools) <= Tools.CanonicalNames(base.tools)
    && (base.defaults.disclosureRequired ==>
          !p.disclosureDisabled && p.disclosureText == base.defaults.disclosureText)
    && (forall path :: path in p.owner.fields ==>
          exists k :: 0 <= k < |base.variables| && base.variables[k].path == path &&
            LevelRank(AppliedLevel(p.owner, path)) >= LevelRank(DisclosureFloor(base.variables[k])))
    && (forall key :: key in p.owner.restricted ==>
          exists k :: 0 <= k < |base.variables| && base.variables[k].path == Field(Restricted, key) &&
            p.owner.restricted[key].approvalRequired == (base.variables[k].send == OnApproval) &&
            p.owner.restricted[key].neverAutoSend == (base.variables[k].send == NeverSend))
  }

  /** For every base, every fork ValidateFork accepts and every install Resolve
      accepts: the settings stay within what the base permits. */
  lemma NoAuthorityGain(base: Entry, fork: Entry, install: Install, parses: OwnerProfile -> bool, rest: bool)
    requires WellFormed(base.def) && WellFormed(fork.def) && Narrows(base, fork)
    requires Accepted(fork.def, install, parses, rest)
    ensures TiersAccepted(base.def.intents, Loosest(base.def.intents))
    ensures WithinBase(base.def, fork.def, Settings(fork.def, install))
  {
    var b, f, p := base.def, fork.def, Settings(fork.def, install);
    DefaultsOrLoosest(b.intents);
    forall name | name in p.allow ensures name in At(b.intents, Loosest(b.intents), Auto) {
      Text.SortedMembers(At(f.intents, install.tiers, Auto), name);
      AllowlistWithinBase(b.intents, f.intents, install.tiers, name);
    }
    forall i | 0 <= i < |b.intents| && b.intents[i].tier == Never && b.intents[i].userOverride != Any
      ensures b.intents[i].name in p.deny
    {
      NeverStaysNever(b.intents, f.intents, install.tiers, i);
      Text.SortedMembers(At(f.intents, install.tiers, Never), b.intents[i].name);
    }
    forall path | path in p.owner.fields
      ensures exists k :: 0 <= k < |b.variables| && b.variables[k].path == path &&
                LevelRank(AppliedLevel(p.owner, path)) >= LevelRank(DisclosureFloor(b.variables[k]))
    {
      DisclosureWithinBase(b.variables, f.variables, install, path);
    }
    forall key | key in p.owner.restricted
      ensures exists k :: 0 <= k < |b.variables| && b.variables[k].path == Field(Restricted, key) &&
                p.owner.restricted[key].approvalRequired == (b.variables[k].send == OnApproval) &&
                p.owner.restricted[key].neverAutoSend == (b.variables[k].send == NeverSend)
    {
      RestrictedAsBase(b.variables, f.variables, install, key);
    }
  }

  // ----- every fork install has a twin of the base -----

  /** The levels that make the base store every field at the fork's level. */
  function TwinLevels(f: seq<Variable>, levels: map<string, Level>): map<string, Level>
    requires UniqueVariables(f)
  {
    map k | 0 <= k < |f| && f[k].send == NoSend :: f[k].name := Or(StoredLevel(f[k], levels), DefaultLevel(f[k].path))
  }

  /** The base's install that does what an install of the fork does. */
  function Twin(b: Definition, f: Definition, install: Install): Install
    requires UniqueVariables(f.variables)
  {
    var l := EffectiveLimits(f, install);
    install.(name := b.metadata.name, version := b.metadata.version, tiers := Loosest(b.intents),
             levels := TwinLevels(f.variables, install.levels),
             limits := LimitOverrides(Some(l.turns), Some(l.msgs), Some(l.chars)))
  }

  /** The same values and send rules, and the same level for every field. */
  ghost predicate SameOwner(o: OwnerProfile, q: OwnerProfile) {
    && q.fields == o.fields && q.restricted == o.restricted
    && (forall p :: p in o.disclosure || p in q.disclosure ==> p in o.fields)
    && (forall p :: p in o.fields ==> AppliedLevel(o, p) == AppliedLevel(q, p))
  }

  /** What the profile parser looks at: a disclosure entry must name a stored field,
      and that is all it asks of one. */
  ghost predicate DisclosureBlind(parses: OwnerProfile -> bool) {
    forall o, q :: SameOwner(o, q) ==> parses(o) == parses(q)
  }

  lemma SameBut(b: Variable, f: Variable)
    requires VariableNarrows(b, f)
    ensures b.name == f.name && b.path == f.path && b.send == f.send && b.typ == f.typ && b.choices == f.choices && b.required == f.required
  {
    var x, y := f.(disclosure := None), b.(disclosure := None);
    assert x.name == y.name && x.path == y.path && x.send == y.send && x.typ == y.typ && x.choices == y.choices && x.required == y.required;
  }

  /** The twin's level of a variable: set for every one that takes a level, and
      allowed by the base. */
  lemma TwinLevel(b: Variable, f: seq<Variable>, k: nat, levels: map<string, Level>)
    requires UniqueVariables(f) && k < |f| && VariableNarrows(b, f[k]) && VariableOk(b)
    requires f[k].name in levels ==> LevelAllowed(f[k], levels[f[k].name])
    ensures b.name in TwinLevels(f, levels) <==> b.send == NoSend
    ensures b.send == NoSend ==>
              && TwinLevels(f, levels)[b.name] == Or(StoredLevel(f[k], levels), DefaultLevel(b.path))
              && LevelAllowed(b, TwinLevels(f, levels)[b.name])
  {
    SameBut(b, f[k]);
    var twin := TwinLevels(f, levels);
    if b.name in twin {
      var i :| 0 <= i < |f| && f[i].send == NoSend && f[i].name == b.name && twin[b.name] == Or(StoredLevel(f[i], levels), DefaultLevel(f[i].path));
      assert i == k;
    }
    if b.send == NoSend {
      assert f[k].name in twin;
      StoredWithinBase(b, f[k], levels);
    }
  }

  /** Placing one variable of the base for the twin does what placing the fork's does. */
  lemma PlaceSame(o: OwnerProfile, q: OwnerProfile, b: Variable, f: Variable, install: Install, twin: Install)
    requires SameOwner(o, q) && VariableNarrows(b, f) && VariableOk(b) && f.path !in o.fields
    requires twin.values == install.values && (b.name in twin.levels <==> b.send == NoSend)
    requires b.send == NoSend ==> twin.levels[b.name] == Or(StoredLevel(f, install.levels), DefaultLevel(b.path))
    ensures SameOwner(Place(o, f, install), Place(q, b, twin))
  {
    SameBut(b, f);
    assert IsRestricted(b) == IsRestricted(f);
  }

  lemma {:induction false} OwnerSame(b: seq<Variable>, f: seq<Variable>, install: Install, twin: Install)
    requires |b| == |f| && UniqueVariables(f) && twin.values == install.values
    requires forall k :: 0 <= k < |f| ==> VariableNarrows(b[k], f[k]) && VariableOk(b[k])
    requires forall k :: 0 <= k < |f| ==> LevelMatches(b[k], f[k], install, twin)
    ensures SameOwner(Owner(f, install), Owner(b, twin))
  {
    if f != [] {
      var n := |f| - 1;
      OwnerSame(b[..n], f[..n], install, twin);
      if f[n].path in Owner(f[..n], install).fields {
        FieldOrigin(f[..n], install, f[n].path);
        assert false;
      }
      assert LevelMatches(b[n], f[n], install, twin);
      PlaceSame(Owner(f[..n], install), Owner(b[..n], twin), b[n], f[n], install, twin);
    }
  }

  predicate LevelMatches(b: Variable, f: Variable, install: Install, twin: Install) {
    && (b.name in twin.levels <==> b.send == NoSend)
    && (b.send == NoSend ==> twin.levels[b.name] == Or(StoredLevel(f, install.levels), DefaultLevel(b.path)))
  }

  lemma TwinValues(b: seq<Variable>, f: seq<Variable>, install: Install, twin: Install)
    requires VariablesNarrow(b, f) && UniqueVariables(f) && ValuesAccepted(f, install)
    requires forall k :: 0 <= k < |b| ==> VariableOk(b[k])
    requires twin.values == install.values && twin.levels == TwinLevels(f, install.levels)
    ensures ValuesAccepted(b, twin) && SameOwner(Owner(f, install), Owner(b, twin))
  {
    forall k | 0 <= k < |b|
      ensures b[k].name == f[k].name && ValueOk(b[k], twin) && LevelMatches(b[k], f[k], install, twin)
      ensures b[k].name in twin.levels ==> LevelAllowed(b[k], twin.levels[b[k].name])
    {
      assert VariableNarrows(b[k], f[k]) && ValueOk(f[k], install);
      SameBut(b[k], f[k]);
      TwinLevel(b[k], f, k, install.levels);
    }
    TwinNames(b, f, install.values.Keys);
    TwinNames(b, f, twin.levels.Keys);
    OwnerSame(b, f, install, twin);
  }

  lemma TwinNames(b: seq<Variable>, f: seq<Variable>, names: set<string>)
    requires |b| == |f| && (forall k :: 0 <= k < |b| ==> b[k].name == f[k].name)
    requires forall name :: name in names ==> HasVariable(f, name)
    ensures forall name :: name in names ==> HasVariable(b, name)
  {
    forall name | name in names ensures HasVariable(b, name) {
      var k :| 0 <= k < |f| && f[k].name == name;
      assert b[k].name == name;
    }
  }

  lemma TwinAccepted(base: Entry, fork: Entry, install: Install, parses: OwnerProfile -> bool, rest: bool)
    requires WellFormed(base.def) && WellFormed(fork.def) && Narrows(base, fork) && DisclosureBlind(parses)
    requires Accepted(fork.def, install, parses, rest)
    ensures Accepted(base.def, Twin(base.def, fork.def, install), parses, rest)
    ensures SameOwner(Owner(fork.def.variables, install), Owner(base.def.variables, Twin(base.def, fork.def, install)))
  {
    var b, f := base.def, fork.def;
    var twin := Twin(b, f, install);
    DefaultsOrLoosest(b.intents);
    TwinValues(b.variables, f.variables, install, twin);
    assert EffectiveLimits(b, twin) == EffectiveLimits(f, install);
  }

  /** No authority gain, as an install of the base: whatever an accepted install of a
      valid fork can do, the base's author already allowed someone to have. Its twin
      is accepted for the base and has the same settings, but for intents: it
      auto-sends at least as many and refuses no more. */
  lemma ForkInstallHasTwin(base: Entry, fork: Entry, install: Install, parses: OwnerProfile -> bool, rest: bool)
    requires WellFormed(base.def) && WellFormed(fork.def) && Narrows(base, fork) && DisclosureBlind(parses)
    requires Accepted(fork.def, install, parses, rest)
    ensures var twin := Twin(base.def, fork.def, install);
            var p, q := Settings(fork.def, install), Settings(base.def, twin);
            && Accepted(base.def, twin, parses, rest)
            && q == p.(allow := q.allow, deny := q.deny, owner := q.owner) && SameOwner(p.owner, q.owner)
            && (forall name :: name in p.allow ==> name in q.allow)
            && (forall name :: name in q.deny ==> name in p.deny)
  {
    var b, f := base.def, fork.def;
    var twin := Twin(b, f, install);
    TwinAccepted(base, fork, install, parses, rest);
    assert EffectiveLimits(b, twin) == EffectiveLimits(f, install);
    TwinIntents(b.intents, f.intents, install.tiers);
  }

  lemma TwinIntents(b: seq<Intent>, f: seq<Intent>, tiers: map<string, Tier>)
    requires UniqueIntents(b) && UniqueIntents(f) && IntentsNarrow(b, f) && TiersAccepted(f, tiers)
    ensures forall name :: name in Text.Sorted(At(f, tiers, Auto)) ==> name in Text.Sorted(At(b, Loosest(b), Auto))
    ensures forall name :: name in Text.Sorted(At(b, Loosest(b), Never)) ==> name in Text.Sorted(At(f, tiers, Never))
  {
    forall name | name in Text.Sorted(At(f, tiers, Auto)) ensures name in Text.Sorted(At(b, Loosest(b), Auto)) {
      Text.SortedMembers(At(f, tiers, Auto), name);
      AllowlistWithinBase(b, f, tiers, name);
      Text.SortedMembers(At(b, Loosest(b), Auto), name);
    }
    forall name | name in Text.Sorted(At(b, Loosest(b), Never)) ensures name in Text.Sorted(At(f, tiers, Never)) {
      Text.SortedMembers(At(b, Loosest(b), Never), name);
      Text.SortedMembers(At(f, tiers, Never), name);
      AtMembers(b, Loosest(b), Never, name);
      var i :| 0 <= i < |b| && b[i].name == name && EffectiveTier(b[i], Loosest(b)) == Never;
      LoosestTier(b, i);
      NeverStaysNever(b, f, tiers, i);
    }
  }

  /** A valid fork's evaluation run auto-sends no intent its base's run would not. */
  lemma SuiteAllowlistNarrows(b: seq<Intent>, f: seq<Intent>, name: string)
    requires UniqueIntents(b) && UniqueIntents(f) && IntentsNarrow(b, f)
    ensures name in At(f, Loosest(f), Auto) ==> name in At(b, Loosest(b), Auto)
  {
    DefaultsOrLoosest(f);
    if name in At(f, Loosest(f), Auto) {
      AllowlistWithinBase(b, f, Loosest(f), name);
    }
  }
}
