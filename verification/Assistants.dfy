/** The tool names an assistant definition may use (internal/agent/tools). */
module Tools {
  import opened Wrappers

  const CANONICAL: set<string> := {
    "get_event", "get_conversation_context", "get_recruiter_profile", "get_lead", "get_policy",
    "propose_reply", "save_job_lead", "request_owner_approval", "send_owner_summary",
    "pause_autopilot", "complete_agent_job"
  }

  const ALIASES: map<string, string> := map[
    "get_owner_profile" := "get_recruiter_profile",
    "get_record" := "get_lead",
    "save_record" := "save_job_lead"
  ]

  const MANDATORY: set<string> := {"get_event", "complete_agent_job"}

  function CanonicalName(n: string): string {
    if n in ALIASES then ALIASES[n] else n
  }

  /** No tool is named twice under any of its names. */
  predicate AllDistinct(cs: seq<string>) {
    forall i, j :: 0 <= i < j < |cs| ==> cs[i] != cs[j]
  }

  function Canonicals(names: seq<string>): (cs: seq<string>)
    ensures |cs| == |names|
  {
    seq(|names|, i requires 0 <= i < |names| => CanonicalName(names[i]))
  }

  function CanonicalNames(names: seq<string>): set<string> { set c | c in Canonicals(names) }

  predicate Resolvable(names: seq<string>) {
    var cs := Canonicals(names);
    (forall i :: 0 <= i < |cs| ==> cs[i] in CANONICAL) && AllDistinct(cs)
  }

  /** The loop of Resolve over the canonical names. */
  method CheckKnown(cs: seq<string>, known: set<string>) returns (ok: bool)
    ensures ok <==> (forall i :: 0 <= i < |cs| ==> cs[i] in known) && AllDistinct(cs)
  {
    var seen: set<string> := {};
    for k := 0 to |cs|
      invariant forall i :: 0 <= i < k ==> cs[i] in seen && cs[i] in known
      invariant forall c :: c in seen ==> exists i :: 0 <= i < k && cs[i] == c
      invariant AllDistinct(cs[..k])
    {
      if cs[k] !in known || cs[k] in seen { return false; }
      seen := seen + {cs[k]};
    }
    assert cs[..|cs|] == cs;
    ok := true;
  }

  method Resolve(names: seq<string>) returns (r: Option<seq<string>>)
    ensures r == if Resolvable(names) then Some(Canonicals(names)) else None
  {
    var cs := Canonicals(names);
    var ok := CheckKnown(cs, CANONICAL);
    r := if ok then Some(cs) else None;
  }

  predicate Valid(names: seq<string>) {
    Resolvable(names) && MANDATORY <= CanonicalNames(names)
  }

  /** The names of one tool: its canonical name and the generic aliases for it. */
  predicate NamesTool(n: string, tool: string) {
    n == tool || (n == "get_owner_profile" && tool == "get_recruiter_profile") ||
    (n == "get_record" && tool == "get_lead") || (n == "save_record" && tool == "save_job_lead")
  }

  /** Names resolve exactly if each names a tool and no tool is named twice, under
      whatever names; the result names each tool in its turn. */
  lemma ResolvableMeans(names: seq<string>)
    ensures Resolvable(names) <==>
            && (forall i :: 0 <= i < |names| ==> exists tool :: tool in CANONICAL && NamesTool(names[i], tool))
            && (forall i, j, tool :: 0 <= i < j < |names| && tool in CANONICAL && NamesTool(names[i], tool) ==> !NamesTool(names[j], tool))
    ensures Resolvable(names) ==> forall i :: 0 <= i < |names| ==> NamesTool(names[i], Canonicals(names)[i])
  {
    forall n, tool | tool in CANONICAL ensures NamesTool(n, tool) <==> CanonicalName(n) == tool { OneTool(n, tool); }
    var cs := Canonicals(names);
    if Resolvable(names) {
      forall i | 0 <= i < |names| ensures exists tool :: tool in CANONICAL && NamesTool(names[i], tool) {
        assert cs[i] in CANONICAL && NamesTool(names[i], cs[i]);
      }
    }
    if forall i :: 0 <= i < |names| ==> exists tool :: tool in CANONICAL && NamesTool(names[i], tool) {
      forall i | 0 <= i < |names| ensures cs[i] in CANONICAL && NamesTool(names[i], cs[i]) {
        var tool :| tool in CANONICAL && NamesTool(names[i], tool);
      }
    }
  }

  lemma OneTool(n: string, tool: string)
    requires tool in CANONICAL
    ensures NamesTool(n, tool) <==> CanonicalName(n) == tool
  {
  }
}

/** Assistant definitions and installs, as the schema lets them decode
    (internal/assistant/assistant.go). */
module Assistants {
  import opened Wrappers
  import Tools

  datatype Tier = Auto | Approve | Never

  function TierRank(t: Tier): nat { match t case Auto => 0 case Approve => 1 case Never => 2 }

  /** How an install may change a tier; Unset reads as Tighten. */
  datatype UserOverride = Unset | Any | Tighten | Fixed

  function OverrideRank(o: UserOverride): nat {
    match o case Any => 0 case Unset => 1 case Tighten => 1 case Fixed => 2
  }

  datatype Intent = Intent(name: string, description: string, tier: Tier, userOverride: UserOverride)

  datatype Level = Public | AfterOwnerEngaged | NeverShown

  function LevelRank(l: Level): nat { match l case Public => 0 case AfterOwnerEngaged => 1 case NeverShown => 2 }

  datatype Section = Identity | PublicProfile | Preferences | Restricted

  datatype Path = Skills | Field(section: Section, key: string)

  datatype Send = NoSend | OnApproval | NeverSend

  datatype VarType = StringType | NumberType | BoolType | ListType

  datatype Value = Str(s: string) | Num(n: real) | Bool(b: bool) | List(items: seq<Value>)

  datatype Variable = Variable(
    name: string, description: string, typ: VarType, required: bool, choices: seq<string>,
    path: Path, disclosure: Option<Level>, send: Send)

  datatype Limits = Limits(turns: int, msgs: int, chars: int)

  predicate Within(l: Limits, c: Limits) { l.turns <= c.turns && l.msgs <= c.msgs && l.chars <= c.chars }

  datatype ForkRef = ForkRef(name: string, version: string, digest: string)

  datatype Status = Draft | Active | Deprecated

  datatype Metadata = Metadata(
    name: string, title: string, description: string, version: string, owner: string, isPrivate: bool,
    status: Status, tags: seq<string>, examples: seq<string>, fork: Option<ForkRef>)

  datatype Escalation = Escalation(name: string, when: string, action: string)

  datatype Execution = Execution(model: string, budgetUsd: real, timeoutSeconds: int)

  datatype Defaults = Defaults(
    mode: string, limits: Limits, ceilings: Limits, disclosureRequired: bool, disclosureText: string)

  datatype Definition = Definition(
    apiVersion: string, metadata: Metadata, instructions: string, variables: seq<Variable>,
    intents: seq<Intent>, tools: seq<string>, records: string, escalation: seq<Escalation>,
    defaults: Defaults, execution: Execution)

  /** A materialized definition and its digest. */
  datatype Entry = Entry(def: Definition, digest: string)

  datatype LimitOverrides = LimitOverrides(turns: Option<int>, msgs: Option<int>, chars: Option<int>)

  datatype Install = Install(
    name: string, version: string, mode: Option<string>, runtime: Option<string>,
    paused: Option<bool>, listening: Option<bool>,
    values: map<string, Value>, levels: map<string, Level>, tiers: map<string, Tier>,
    limits: LimitOverrides, disclosureEnabled: Option<bool>, disclosureText: string)

  function DefaultLevel(p: Path): Level {
    if p == Skills || p == Field(Identity, "name") || p == Field(Identity, "role") then Public
    else AfterOwnerEngaged
  }

  /** The level an install may only make stricter. */
  function DisclosureFloor(v: Variable): Level {
    if v.disclosure.Some? then v.disclosure.value else DefaultLevel(v.path)
  }

  /** Whether a value at this level may be told: always, once the owner has engaged,
      or never. */
  predicate Told(l: Level, engaged: bool) { l == Public || (l == AfterOwnerEngaged && engaged) }

  /** A stricter level is one that tells no more. */
  lemma RankIsSecrecy(a: Level, b: Level)
    ensures LevelRank(a) <= LevelRank(b) <==> forall engaged :: Told(b, engaged) ==> Told(a, engaged)
  {
    assert Told(AfterOwnerEngaged, true) && Told(Public, true) && Told(Public, false);
    assert !Told(AfterOwnerEngaged, false) && !Told(NeverShown, true) && !Told(NeverShown, false);
  }

  /** The author's level, or else public for the skills, the name and the role, and
      for everything else only once the owner has engaged. */
  lemma FloorMeans(v: Variable, engaged: bool)
    ensures v.disclosure.Some? ==> DisclosureFloor(v) == v.disclosure.value
    ensures v.disclosure.None? ==>
              (Told(DisclosureFloor(v), engaged) <==> engaged || v.path in {Skills, Field(Identity, "name"), Field(Identity, "role")})
  {
  }

  predicate IsRestricted(v: Variable) { v.path.Field? && v.path.section == Restricted }

  // ----- the checks ParseDefinition adds to the schema -----

  predicate VariableOk(v: Variable) {
    && (IsRestricted(v) ==> v.send != NoSend && v.disclosure == None)
    && (!IsRestricted(v) ==> v.send == NoSend)
    && (v.path == Skills ==> v.typ == ListType)
  }

  predicate UniqueIntents(intents: seq<Intent>) {
    forall i, j :: 0 <= i < j < |intents| ==> intents[i].name != intents[j].name
  }

  predicate Declares(intents: seq<Intent>, name: string) {
    exists k :: 0 <= k < |intents| && intents[k].name == name
  }

  predicate UniqueVariables(vars: seq<Variable>) {
    forall i, j :: 0 <= i < j < |vars| ==> vars[i].name != vars[j].name && vars[i].path != vars[j].path
  }

  /** Fork metadata checks are the ForkNames module's; the rest of the rules. */
  predicate WellFormed(d: Definition) {
    && (forall i :: 0 <= i < |d.variables| ==> VariableOk(d.variables[i]))
    && UniqueVariables(d.variables) && UniqueIntents(d.intents)
    && Within(d.defaults.limits, d.defaults.ceilings)
    && Tools.Valid(d.tools)
  }

  method CheckDefinition(d: Definition) returns (ok: bool)
    ensures ok <==> WellFormed(d)
  {
    var names: set<string> := {};
    for k := 0 to |d.variables|
      invariant names == set i | 0 <= i < k :: d.variables[i].name
      invariant forall i :: 0 <= i < k ==> VariableOk(d.variables[i])
      invariant forall i, j :: 0 <= i < j < k ==> d.variables[i].name != d.variables[j].name
    {
      var v := d.variables[k];
      if v.name in names { return false; }
      names := names + {v.name};
      if IsRestricted(v) && v.send == NoSend { return false; }
      if IsRestricted(v) && v.disclosure != None { return false; }
      if !IsRestricted(v) && v.send != NoSend { return false; }
      if v.path == Skills && v.typ != ListType { return false; }
    }
    var paths: set<Path> := {};
    for k := 0 to |d.variables|
      invariant paths == set i | 0 <= i < k :: d.variables[i].path
      invariant forall i, j :: 0 <= i < j < k ==> d.variables[i].path != d.variables[j].path
    {
      if d.variables[k].path in paths { return false; }
      paths := paths + {d.variables[k].path};
    }
    var intents: set<string> := {};
    for k := 0 to |d.intents|
      invariant intents == set i | 0 <= i < k :: d.intents[i].name
      invariant forall i, j :: 0 <= i < j < k ==> d.intents[i].name != d.intents[j].name
    {
      if d.intents[k].name in intents { return false; }
      intents := intents + {d.intents[k].name};
    }
    if !Within(d.defaults.limits, d.defaults.ceilings) { return false; }
    var tools := Tools.Resolve(d.tools);
    ok := tools.Some? && Tools.MANDATORY <= Tools.CanonicalNames(d.tools);
  }
}

/** Resolving an install against its definition (Resolve and its parts). */
module Installs {
  import opened Wrappers
  import opened Assistants
  import Text
  import Tools

  // ----- intent tiers -----

  predicate TierAllowed(i: Intent, t: Tier) {
    t == i.tier || (i.userOverride != Fixed && (i.userOverride == Any || TierRank(t) >= TierRank(i.tier)))
  }

  function EffectiveTier(i: Intent, tiers: map<string, Tier>): Tier {
    if i.name in tiers then tiers[i.name] else i.tier
  }

  predicate TiersAccepted(intents: seq<Intent>, tiers: map<string, Tier>) {
    && (forall name :: name in tiers ==> Declares(intents, name))
    && (forall k :: 0 <= k < |intents| ==> TierAllowed(intents[k], EffectiveTier(intents[k], tiers)))
  }

  /** Names of the intents that resolve to tier t, in declaration order. */
  function At(intents: seq<Intent>, tiers: map<string, Tier>, t: Tier): seq<string> {
    if intents == [] then []
    else
      var last := intents[|intents| - 1];
      At(intents[..|intents| - 1], tiers, t) + (if EffectiveTier(last, tiers) == t then [last.name] else [])
  }

  lemma {:induction false} AtMembers(intents: seq<Intent>, tiers: map<string, Tier>, t: Tier, name: string)
    ensures name in At(intents, tiers, t) <==>
            exists k :: 0 <= k < |intents| && intents[k].name == name && EffectiveTier(intents[k], tiers) == t
  {
    if intents != [] {
      var front := intents[..|intents| - 1];
      AtMembers(front, tiers, t, name);
      assert forall k :: 0 <= k < |front| ==> front[k] == intents[k];
      if name in At(front, tiers, t) {
        var k :| 0 <= k < |front| && front[k].name == name && EffectiveTier(front[k], tiers) == t;
        assert intents[k].name == name;
      }
    }
  }

  datatype TierError = UnknownIntent(name: string) | CannotChange(name: string) | OnlyTightened(name: string)

  method CheckKnown(intents: seq<Intent>, tiers: map<string, Tier>) returns (unknown: Option<string>)
    ensures unknown.None? <==> forall name :: name in tiers ==> Declares(intents, name)
    ensures unknown.Some? ==> unknown.value in tiers && !Declares(intents, unknown.value)
  {
    var known: map<string, Intent> := map[];
    for k := 0 to |intents|
      invariant forall i :: 0 <= i < k ==> intents[i].name in known
      invariant forall name :: name in known ==> Declares(intents, name)
    {
      known := known[intents[k].name := intents[k]];
    }
    var todo := tiers.Keys;
    while todo != {}
      invariant todo <= tiers.Keys
      invariant forall name :: name in tiers && name !in todo ==> name in known
    {
      var name :| name in todo;
      if name !in known { return Some(name); }
      todo := todo - {name};
    }
    unknown := None;
  }

  predicate Refused(intents: seq<Intent>, tiers: map<string, Tier>, e: TierError) {
    match e
    case UnknownIntent(name) => name in tiers && !Declares(intents, name)
    case CannotChange(name) =>
      exists k :: 0 <= k < |intents| && intents[k].name == name && intents[k].userOverride == Fixed &&
        EffectiveTier(intents[k], tiers) != intents[k].tier
    case OnlyTightened(name) =>
      exists k :: 0 <= k < |intents| && intents[k].name == name && intents[k].userOverride in {Unset, Tighten} &&
        TierRank(EffectiveTier(intents[k], tiers)) < TierRank(intents[k].tier)
  }

  method IntentTiers(intents: seq<Intent>, tiers: map<string, Tier>)
    returns (r: Result<(seq<string>, seq<string>), TierError>)
    ensures r.Ok? <==> TiersAccepted(intents, tiers)
    ensures r.Ok? ==> r.value == (Text.Sorted(At(intents, tiers, Auto)), Text.Sorted(At(intents, tiers, Never)))
    ensures r.Err? ==> Refused(intents, tiers, r.error)
  {
    var unknown := CheckKnown(intents, tiers);
    if unknown.Some? { return Err(UnknownIntent(unknown.value)); }
    var allow: seq<string>, never: seq<string> := [], [];
    for k := 0 to |intents|
      invariant allow == At(intents[..k], tiers, Auto) && never == At(intents[..k], tiers, Never)
      invariant forall i :: 0 <= i < k ==> TierAllowed(intents[i], EffectiveTier(intents[i], tiers))
    {
      var i := intents[k];
      var tier := i.tier;
      if i.name in tiers && tiers[i.name] != tier {
        var mode := if i.userOverride == Unset then Tighten else i.userOverride;
        if mode == Fixed { return Err(CannotChange(i.name)); }
        if mode == Tighten && TierRank(tiers[i.name]) < TierRank(tier) { return Err(OnlyTightened(i.name)); }
        tier := tiers[i.name];
      }
      assert intents[..k + 1][..k] == intents[..k];
      if tier == Never {
        never := never + [i.name];
      } else if tier == Auto {
        allow := allow + [i.name];
      }
    }
    assert intents[..|intents|] == intents;
    r := Ok((Text.Sorted(allow), Text.Sorted(never)));
  }

  // ----- the owner profile -----

  datatype RestrictedField = RestrictedField(value: Value, approvalRequired: bool, neverAutoSend: bool)

  datatype OwnerProfile = OwnerProfile(
    fields: map<Path, Value>, restricted: map<string, RestrictedField>, disclosure: map<Path, Level>)

  predicate TypeOk(v: Variable, val: Value) {
    match v.typ
    case StringType => val.Str? && (v.choices == [] || val.s in v.choices)
    case NumberType => val.Num?
    case BoolType => val.Bool?
    case ListType => val.List? && forall i :: 0 <= i < |val.items| ==> val.items[i].Str?
  }

  /** The level a placed value is stored under, None when it is left unmarked. */
  function StoredLevel(v: Variable, levels: map<string, Level>): Option<Level> {
    if v.name in levels then Some(levels[v.name]) else v.disclosure
  }

  function Place(o: OwnerProfile, v: Variable, install: Install): OwnerProfile {
    if v.name !in install.values then o
    else
      var val := install.values[v.name];
      if IsRestricted(v) then
        o.(restricted := o.restricted[v.path.key := RestrictedField(val, v.send == OnApproval, v.send == NeverSend)])
      else
        var level := StoredLevel(v, install.levels);
        o.(fields := o.fields[v.path := val],
           disclosure := if level.Some? then o.disclosure[v.path := level.value] else o.disclosure)
  }

  function Owner(vars: seq<Variable>, install: Install): OwnerProfile {
    if vars == [] then OwnerProfile(map[], map[], map[])
    else Place(Owner(vars[..|vars| - 1], install), vars[|vars| - 1], install)
  }

  predicate HasVariable(vars: seq<Variable>, name: string) {
    exists k :: 0 <= k < |vars| && vars[k].name == name
  }

  predicate LevelAllowed(v: Variable, l: Level) {
    v.send == NoSend && LevelRank(l) >= LevelRank(DisclosureFloor(v))
  }

  /** Every value and level override names a variable, every override is allowed. */
  predicate OverridesAccepted(vars: seq<Variable>, install: Install) {
    && (forall name :: name in install.values ==> HasVariable(vars, name))
    && (forall name :: name in install.levels ==> HasVariable(vars, name))
    && (forall k :: 0 <= k < |vars| && vars[k].name in install.levels ==>
          LevelAllowed(vars[k], install.levels[vars[k].name]))
  }

  predicate ValueOk(v: Variable, install: Install) {
    if v.name in install.values then TypeOk(v, install.values[v.name]) else !v.required
  }

  predicate ValuesAccepted(vars: seq<Variable>, install: Install) {
    OverridesAccepted(vars, install) && forall k :: 0 <= k < |vars| ==> ValueOk(vars[k], install)
  }

  method VariablesByName(vars: seq<Variable>) returns (known: map<string, Variable>)
    requires UniqueVariables(vars)
    ensures forall name :: name in known <==> HasVariable(vars, name)
    ensures forall i :: 0 <= i < |vars| ==> vars[i].name in known && known[vars[i].name] == vars[i]
    ensures forall name :: name in known ==> known[name] in vars && known[name].name == name
  {
    known := map[];
    for k := 0 to |vars|
      invariant forall i :: 0 <= i < k ==> vars[i].name in known && known[vars[i].name] == vars[i]
      invariant forall name :: name in known ==> HasVariable(vars, name) && known[name] in vars && known[name].name == name
    {
      known := known[vars[k].name := vars[k]];
    }
  }

  method CheckOverrides(vars: seq<Variable>, install: Install) returns (ok: bool)
    requires UniqueVariables(vars)
    ensures ok <==> OverridesAccepted(vars, install)
  {
    var known := VariablesByName(vars);
    if exists name :: name in install.values && name !in known { return false; }
    var todo := install.levels.Keys;
    while todo != {}
      invariant todo <= install.levels.Keys
      invariant forall name :: name in install.levels && name !in todo ==>
                  name in known && LevelAllowed(known[name], install.levels[name])
    {
      var name :| name in todo;
      if name !in known { return false; }
      if known[name].send != NoSend || LevelRank(install.levels[name]) < LevelRank(DisclosureFloor(known[name])) {
        assert !LevelAllowed(known[name], install.levels[name]);
        return false;
      }
      todo := todo - {name};
    }
    ok := true;
  }

  method BuildOwner(vars: seq<Variable>, install: Install) returns (r: Option<OwnerProfile>)
    requires UniqueVariables(vars)
    ensures r.Some? <==> ValuesAccepted(vars, install)
    ensures r.Some? ==> r.value == Owner(vars, install)
  {
    var ok := CheckOverrides(vars, install);
    if !ok { return None; }
    var o := OwnerProfile(map[], map[], map[]);
    for k := 0 to |vars|
      invariant o == Owner(vars[..k], install)
      invariant forall i :: 0 <= i < k ==> ValueOk(vars[i], install)
    {
      var v := vars[k];
      assert vars[..k + 1][..k] == vars[..k];
      if v.name !in install.values {
        if v.required { return None; }
      } else {
        if !TypeOk(v, install.values[v.name]) { return None; }
        o := Place(o, v, install);
      }
    }
    assert vars[..|vars|] == vars;
    r := Some(o);
  }

  // ----- Resolve -----

  datatype Profile = Profile(
    mode: string, runtime: string, paused: bool, listening: bool,
    disclosureText: string, disclosureDisabled: bool, limits: Limits,
    allow: seq<string>, deny: seq<string>, owner: OwnerProfile)

  predicate Supported(d: Definition) {
    && Tools.Valid(d.tools)
    && d.execution == Execution("", 0.0, 0)
    && d.records == "job_lead"
  }

  function EffectiveLimits(d: Definition, install: Install): Limits {
    Limits(Or(install.limits.turns, d.defaults.limits.turns), Or(install.limits.msgs, d.defaults.limits.msgs),
           Or(install.limits.chars, d.defaults.limits.chars))
  }

  predicate DisclosureAccepted(d: Definition, install: Install) {
    d.defaults.disclosureRequired ==> install.disclosureText == "" && Or(install.disclosureEnabled, true)
  }

  /** Everything Resolve checks.  `rest` is the verdict of the schedule and the
      audience scope, `parses` that of the owner profile parser. */
  predicate Accepted(d: Definition, install: Install, parses: OwnerProfile -> bool, rest: bool) {
    && install.name == d.metadata.name && install.version == d.metadata.version
    && Supported(d)
    && ValuesAccepted(d.variables, install) && parses(Owner(d.variables, install))
    && TiersAccepted(d.intents, install.tiers)
    && rest
    && Within(EffectiveLimits(d, install), d.defaults.ceilings)
    && DisclosureAccepted(d, install)
  }

  function Settings(d: Definition, install: Install): Profile {
    var on := Or(install.disclosureEnabled, true);
    Profile(
      Or(install.mode, d.defaults.mode), Or(install.runtime, "own"),
      Or(install.paused, true), Or(install.listening, false),
      if !on then "" else if install.disclosureText != "" then install.disclosureText else d.defaults.disclosureText,
      !on, EffectiveLimits(d, install),
      Text.Sorted(At(d.intents, install.tiers, Auto)), Text.Sorted(At(d.intents, install.tiers, Never)),
      Owner(d.variables, install))
  }

  method ResolveLimits(d: Definition, install: Install) returns (r: Option<Limits>)
    ensures r == if Within(EffectiveLimits(d, install), d.defaults.ceilings) then Some(EffectiveLimits(d, install)) else None
  {
    var limits := d.defaults.limits;
    if install.limits.turns.Some? { limits := limits.(turns := install.limits.turns.value); }
    if install.limits.msgs.Some? { limits := limits.(msgs := install.limits.msgs.value); }
    if install.limits.chars.Some? { limits := limits.(chars := install.limits.chars.value); }
    r := if Within(limits, d.defaults.ceilings) then Some(limits) else None;
  }

  /** The disclosure text and whether the line is on. */
  method ResolveDisclosure(d: Definition, install: Install) returns (r: Option<(string, bool)>)
    ensures r.Some? <==> DisclosureAccepted(d, install)
    ensures r.Some? ==> r.value.1 == Or(install.disclosureEnabled, true)
    ensures r.Some? ==>
              r.value.0 == if !r.value.1 then "" else if install.disclosureText != "" then install.disclosureText else d.defaults.disclosureText
  {
    var on, text := true, d.defaults.disclosureText;
    if install.disclosureEnabled.Some? { on := install.disclosureEnabled.value; }
    if install.disclosureText != "" {
      if d.defaults.disclosureRequired { return None; }
      text := install.disclosureText;
    }
    if !on {
      if d.defaults.disclosureRequired { return None; }
      text := "";
    }
    r := Some((text, on));
  }

  method Resolve(d: Definition, install: Install, parses: OwnerProfile -> bool, rest: bool) returns (r: Option<Profile>)
    requires UniqueVariables(d.variables)
    ensures r.Some? <==> Accepted(d, install, parses, rest)
    ensures r.Some? ==> r.value == Settings(d, install)
    ensures r.Some? && UniqueIntents(d.intents) ==> Reflects(d, install, r.value)
  {
    if install.name != d.metadata.name || install.version != d.metadata.version { return None; }
    if !Supported(d) { return None; }
    var owner := BuildOwner(d.variables, install);
    if owner.None? || !parses(owner.value) { return None; }
    var tiers := IntentTiers(d.intents, install.tiers);
    if tiers.Err? || !rest { return None; }
    var limits := ResolveLimits(d, install);
    if limits.None? { return None; }
    var disclosure := ResolveDisclosure(d, install);
    if disclosure.None? { return None; }
    r := Some(Profile(
      Or(install.mode, d.defaults.mode), Or(install.runtime, "own"),
      Or(install.paused, true), Or(install.listening, false),
      disclosure.value.0, !disclosure.value.1, limits.value, tiers.value.0, tiers.value.1, owner.value));
    if UniqueIntents(d.intents) { SettingsMean(d, install); }
  }

  // ----- what an accepted install means, setting by setting -----

  /** One variable's value as stored: under its path, with the install's level, else
      the author's, else none; or restricted, with the author's send rule. */
  predicate StoredAs(v: Variable, install: Install, o: OwnerProfile) {
    v.name in install.values ==>
      var val := install.values[v.name];
      if IsRestricted(v) then
        v.path.key in o.restricted && o.restricted[v.path.key] == RestrictedField(val, v.send == OnApproval, v.send == NeverSend)
      else
        && v.path in o.fields && o.fields[v.path] == val
        && (v.name in install.levels ==> v.path in o.disclosure && o.disclosure[v.path] == install.levels[v.name])
        && (v.name !in install.levels && v.disclosure.Some? ==> v.path in o.disclosure && o.disclosure[v.path] == v.disclosure.value)
        && (v.name !in install.levels && v.disclosure.None? ==> v.path !in o.disclosure)
  }

  ghost predicate HasValueAt(vars: seq<Variable>, install: Install, p: Path) {
    exists k :: 0 <= k < |vars| && vars[k].path == p && vars[k].name in install.values
  }

  /** The profile holds every given value, and nothing else. */
  ghost predicate OwnerIs(vars: seq<Variable>, install: Install, o: OwnerProfile) {
    && (forall k :: 0 <= k < |vars| ==> StoredAs(vars[k], install, o))
    && (forall p :: p in o.fields || p in o.disclosure ==> HasValueAt(vars, install, p) && !(p.Field? && p.section == Restricted))
    && (forall key :: key in o.restricted ==> HasValueAt(vars, install, Field(Restricted, key)))
  }

  lemma PlaceKeepsOthers(o: OwnerProfile, v: Variable, u: Variable, install: Install)
    requires StoredAs(u, install, o) && u.path != v.path
    ensures StoredAs(u, install, Place(o, v, install))
  {
  }

  lemma PlaceStores(o: OwnerProfile, v: Variable, install: Install)
    requires v.path !in o.disclosure
    ensures StoredAs(v, install, Place(o, v, install))
  {
  }

  lemma HasValueMore(front: seq<Variable>, v: Variable, install: Install, p: Path)
    requires HasValueAt(front, install, p)
    ensures HasValueAt(front + [v], install, p)
  {
    var i :| 0 <= i < |front| && front[i].path == p && front[i].name in install.values;
    assert (front + [v])[i] == front[i];
  }

  lemma PlaceIs(front: seq<Variable>, v: Variable, install: Install, o: OwnerProfile)
    requires (forall k :: 0 <= k < |front| ==> front[k].path != v.path) && OwnerIs(front, install, o)
    ensures OwnerIs(front + [v], install, Place(o, v, install))
  {
    var vars, q := front + [v], Place(o, v, install);
    assert !HasValueAt(front, install, v.path);
    PlaceStores(o, v, install);
    forall k | 0 <= k < |front| ensures StoredAs(front[k], install, q) { PlaceKeepsOthers(o, v, front[k], install); }
    forall p | HasValueAt(front, install, p) ensures HasValueAt(vars, install, p) { HasValueMore(front, v, install, p); }
    assert vars[|front|] == v;
    assert v.name in install.values ==> HasValueAt(vars, install, v.path);
  }

  lemma {:induction false} OwnerMeans(vars: seq<Variable>, install: Install)
    requires UniqueVariables(vars)
    ensures OwnerIs(vars, install, Owner(vars, install))
  {
    if vars != [] {
      var front, v := vars[..|vars| - 1], vars[|vars| - 1];
      assert vars == front + [v];
      OwnerMeans(front, install);
      PlaceIs(front, v, install, Owner(front, install));
    }
  }

  predicate Chosen<T(==)>(given: Option<T>, default: T, result: T) {
    result == if given.Some? then given.value else default
  }

  /** A list of exactly the intents at a tier, each once, in order. */
  ghost predicate ListIs(intents: seq<Intent>, tiers: map<string, Tier>, t: Tier, list: seq<string>) {
    && Text.Ascending(list) && (forall i, j :: 0 <= i < j < |list| ==> list[i] != list[j])
    && (forall name :: name in list <==>
          exists k :: 0 <= k < |intents| && intents[k].name == name && t == (if name in tiers then tiers[name] else intents[k].tier))
  }

  lemma {:induction false} AtDistinct(intents: seq<Intent>, tiers: map<string, Tier>, t: Tier)
    requires UniqueIntents(intents)
    ensures forall i, j :: 0 <= i < j < |At(intents, tiers, t)| ==> At(intents, tiers, t)[i] != At(intents, tiers, t)[j]
  {
    if intents != [] {
      var front, last := intents[..|intents| - 1], intents[|intents| - 1];
      AtDistinct(front, tiers, t);
      AtMembers(front, tiers, t, last.name);
      assert last.name !in At(front, tiers, t);
    }
  }

  lemma ListMeans(intents: seq<Intent>, tiers: map<string, Tier>, t: Tier)
    requires UniqueIntents(intents)
    ensures ListIs(intents, tiers, t, Text.Sorted(At(intents, tiers, t)))
  {
    var at := At(intents, tiers, t);
    Text.SortedAscends(at);
    AtDistinct(intents, tiers, t);
    Text.SortedDistinct(at);
    forall name
      ensures name in Text.Sorted(at) <==>
              exists k :: 0 <= k < |intents| && intents[k].name == name && t == (if name in tiers then tiers[name] else intents[k].tier)
    {
      Text.SortedMembers(at, name);
      AtMembers(intents, tiers, t, name);
    }
  }

  /** An omitted setting is the definition's mode and limits, the worker runtime own,
      paused and not listening, with the disclosure line on and the author's text; a
      given one is exactly itself. */
  ghost predicate Reflects(d: Definition, install: Install, p: Profile) {
    && Chosen(install.mode, d.defaults.mode, p.mode) && Chosen(install.runtime, "own", p.runtime)
    && Chosen(install.paused, true, p.paused) && Chosen(install.listening, false, p.listening)
    && Chosen(install.limits.turns, d.defaults.limits.turns, p.limits.turns)
    && Chosen(install.limits.msgs, d.defaults.limits.msgs, p.limits.msgs)
    && Chosen(install.limits.chars, d.defaults.limits.chars, p.limits.chars)
    && (p.disclosureDisabled <==> install.disclosureEnabled == Some(false))
    && (p.disclosureDisabled ==> p.disclosureText == "")
    && (!p.disclosureDisabled && install.disclosureText == "" ==> p.disclosureText == d.defaults.disclosureText)
    && (!p.disclosureDisabled && install.disclosureText != "" ==> p.disclosureText == install.disclosureText)
    && ListIs(d.intents, install.tiers, Auto, p.allow) && ListIs(d.intents, install.tiers, Never, p.deny)
    && OwnerIs(d.variables, install, p.owner)
  }

  lemma SettingsMean(d: Definition, install: Install)
    requires UniqueIntents(d.intents) && UniqueVariables(d.variables)
    ensures Reflects(d, install, Settings(d, install))
  {
    ListMeans(d.intents, install.tiers, Auto);
    ListMeans(d.intents, install.tiers, Never);
    OwnerMeans(d.variables, install);
  }

  /** Exactly which tier overrides are accepted, override by override. */
  lemma TiersAcceptedMeans(intents: seq<Intent>, tiers: map<string, Tier>)
    requires UniqueIntents(intents)
    ensures TiersAccepted(intents, tiers) <==>
            forall name :: name in tiers ==> exists k :: 0 <= k < |intents| && intents[k].name == name && OverrideOk(intents[k], tiers[name])
  {
    if TiersAccepted(intents, tiers) {
      forall name | name in tiers ensures exists k :: 0 <= k < |intents| && intents[k].name == name && OverrideOk(intents[k], tiers[name]) {
        assert Declares(intents, name);
        var k :| 0 <= k < |intents| && intents[k].name == name;
        assert TierAllowed(intents[k], EffectiveTier(intents[k], tiers));
      }
    }
  }

  /** No change; any change where the author allows any; else only a stricter tier,
      and none where the author fixed it. */
  predicate OverrideOk(i: Intent, t: Tier) {
    match i.userOverride
    case Any => true
    case Fixed => t == i.tier
    case _ => t == i.tier || i.tier == Auto || (i.tier == Approve && t == Never)
  }

  /** What an accepted install must be, besides. */
  lemma AcceptedMeans(d: Definition, install: Install, parses: OwnerProfile -> bool, rest: bool)
    requires UniqueVariables(d.variables) && Accepted(d, install, parses, rest)
    ensures install.name == d.metadata.name && install.version == d.metadata.version && rest
    ensures forall k :: 0 <= k < |d.variables| && d.variables[k].required ==> d.variables[k].name in install.values
    ensures forall name :: name in install.values ==>
              exists k :: 0 <= k < |d.variables| && d.variables[k].name == name && TypeOk(d.variables[k], install.values[name])
    ensures forall name :: name in install.levels ==>
              exists k :: 0 <= k < |d.variables| && d.variables[k].name == name && d.variables[k].send == NoSend &&
                LevelRank(install.levels[name]) >= LevelRank(DisclosureFloor(d.variables[k]))
    ensures var l := Settings(d, install).limits; l.turns <= d.defaults.ceilings.turns && l.msgs <= d.defaults.ceilings.msgs && l.chars <= d.defaults.ceilings.chars
    ensures d.defaults.disclosureRequired ==> install.disclosureText == "" && install.disclosureEnabled != Some(false)
    ensures "get_event" in Tools.CanonicalNames(d.tools) && "complete_agent_job" in Tools.CanonicalNames(d.tools)
    ensures d.records == "job_lead" && d.execution.model == "" && d.execution.budgetUsd == 0.0 && d.execution.timeoutSeconds == 0
  {
    forall name | name in install.values
      ensures exists k :: 0 <= k < |d.variables| && d.variables[k].name == name && TypeOk(d.variables[k], install.values[name])
    {
      var k :| 0 <= k < |d.variables| && d.variables[k].name == name;
      assert ValueOk(d.variables[k], install);
    }
    forall name | name in install.levels
      ensures exists k :: 0 <= k < |d.variables| && d.variables[k].name == name && d.variables[k].send == NoSend &&
                LevelRank(install.levels[name]) >= LevelRank(DisclosureFloor(d.variables[k]))
    {
      var k :| 0 <= k < |d.variables| && d.variables[k].name == name;
      assert LevelAllowed(d.variables[k], install.levels[d.variables[k].name]);
    }
  }
}
