/** Fork names <base>~<owner-scope>~<slug> and the metadata that goes with one. */
module ForkNames {
  import opened Wrappers
  import opened Text
  import opened Assistants

  predicate SlugStart(c: char) { 'a' <= c <= 'z' || '0' <= c <= '9' }

  predicate SlugChar(c: char) { SlugStart(c) || c == '_' || c == '-' }

  predicate SlugOf(s: string, max: nat) {
    1 <= |s| <= max && SlugStart(s[0]) && forall i :: 0 <= i < |s| ==> SlugChar(s[i])
  }

  predicate CatalogName(s: string) { SlugOf(s, 63) }

  predicate ForkSlug(s: string) { SlugOf(s, 32) }

  predicate OwnerScope(s: string) {
    |s| == 10 && forall i :: 0 <= i < |s| ==> 'a' <= s[i] <= 'z' || '2' <= s[i] <= '7'
  }

  predicate IsForkName(name: string) { '~' in name }

  function ForkName(base: string, scope: string, slug: string): string { base + "~" + scope + "~" + slug }

  datatype Parts = Parts(base: string, scope: string, slug: string)

  function ParseForkName(name: string): Option<Parts> {
    var p := Split(name, '~');
    if |p| != 3 || !CatalogName(p[0]) || !OwnerScope(p[1]) || !ForkSlug(p[2]) then None
    else Some(Parts(p[0], p[1], p[2]))
  }

  lemma JoinThree(a: string, b: string, c: string)
    ensures Join([a, b, c], '~') == ForkName(a, b, c)
  {
    assert [a, b, c][1..] == [b, c] && [b, c][1..] == [c];
    assert Join([b, c], '~') == b + ['~'] + c;
  }

  /** Parsing inverts naming, on exactly the valid parts, and naming inverts parsing. */
  lemma ForkNameRoundTrip(base: string, scope: string, slug: string, name: string)
    ensures CatalogName(base) && OwnerScope(scope) && ForkSlug(slug) ==>
              ParseForkName(ForkName(base, scope, slug)) == Some(Parts(base, scope, slug))
    ensures ParseForkName(name).Some? ==>
              var p := ParseForkName(name).value;
              && CatalogName(p.base) && OwnerScope(p.scope) && ForkSlug(p.slug)
              && ForkName(p.base, p.scope, p.slug) == name
  {
    if CatalogName(base) && OwnerScope(scope) && ForkSlug(slug) {
      SplitJoin([base, scope, slug], '~');
      JoinThree(base, scope, slug);
    }
    if ParseForkName(name).Some? {
      var p := Split(name, '~');
      JoinSplit(name, '~');
      assert p == [p[0], p[1], p[2]];
      JoinThree(p[0], p[1], p[2]);
    }
  }

  function ForkOwner(scope: string): string { "acct:" + scope }

  /** checkForkMetadata. */
  predicate MetadataOk(m: Metadata) {
    && (IsForkName(m.name) <==> m.fork.Some?) && (IsForkName(m.name) <==> m.isPrivate)
    && (IsForkName(m.name) ==>
          && ParseForkName(m.name).Some? && ParseForkName(m.name).value.base == m.fork.value.name
          && m.owner == ForkOwner(ParseForkName(m.name).value.scope))
  }

  method CheckForkMetadata(m: Metadata) returns (ok: bool)
    ensures ok <==> MetadataOk(m)
  {
    var fork := IsForkName(m.name);
    if fork != m.fork.Some? { return false; }
    if fork != m.isPrivate { return false; }
    if !fork { return true; }
    var parts := ParseForkName(m.name);
    if parts.None? { return false; }
    if parts.value.base != m.fork.value.name { return false; }
    ok := m.owner == ForkOwner(parts.value.scope);
  }

  predicate IsCatalogEntry(m: Metadata) { m.fork.None? && !m.isPrivate && '~' !in m.name }

  /** The metadata of account scope's fork of the base it names. */
  predicate IsForkOf(m: Metadata, scope: string, slug: string) {
    && m.fork.Some? && m.isPrivate && CatalogName(m.fork.value.name) && OwnerScope(scope) && ForkSlug(slug)
    && m.name == ForkName(m.fork.value.name, scope, slug) && m.owner == ForkOwner(scope)
  }

  /** Neither a fork nor a catalog definition can be passed off as the other, or a
      fork as one of another base or account. */
  lemma MetadataMeans(m: Metadata)
    ensures MetadataOk(m) <==> IsCatalogEntry(m) || exists scope, slug :: IsForkOf(m, scope, slug)
  {
    if MetadataOk(m) && IsForkName(m.name) {
      ForkNameRoundTrip("", "", "", m.name);
      var p := ParseForkName(m.name).value;
      assert IsForkOf(m, p.scope, p.slug);
    }
    if scope, slug :| IsForkOf(m, scope, slug) {
      ForkNameRoundTrip(m.fork.value.name, scope, slug, m.name);
      assert m.name[|m.fork.value.name|] == '~';
    }
  }

  /** ParseDefinition's checks beyond the schema. */
  method CheckParsed(d: Definition) returns (ok: bool)
    ensures ok <==> WellFormed(d) && MetadataOk(d.metadata)
  {
    ok := CheckDefinition(d);
    if ok { ok := CheckForkMetadata(d.metadata); }
  }
}

/** Writing and listing forks (BuildFork, ForkBump, UpdateFork and ListForks). */
module ForkService {
  import opened Wrappers
  import opened Assistants
  import opened Forks
  import opened ForkNames
  import opened Versions
  import opened Text

  datatype Overrides = Overrides(
    instructions: Option<string>, intents: Option<seq<Intent>>, tools: Option<seq<string>>,
    limits: Option<Limits>, ceilings: Option<Limits>, disclosureRequired: Option<bool>)

  /** What ParseMaterialized accepts, beyond the shape of the document. */
  predicate Parses(d: Definition) {
    WellFormed(d) && MetadataOk(d.metadata) && Canonical(d.metadata.version)
  }

  /** The document BuildFork edits `from` into. */
  function Edited(base: Entry, from: Definition, scope: string, name: string, version: string, ov: Overrides): Definition {
    var m := from.metadata.(name := name, version := version, owner := ForkOwner(scope), isPrivate := true, status := Active,
      fork := Some(ForkRef(base.def.metadata.name, base.def.metadata.version, base.digest)));
    var d := from.defaults.(limits := Or(ov.limits, from.defaults.limits), ceilings := Or(ov.ceilings, from.defaults.ceilings),
      disclosureRequired := Or(ov.disclosureRequired, from.defaults.disclosureRequired));
    from.(metadata := m, defaults := d, instructions := Or(ov.instructions, from.instructions),
          intents := Or(ov.intents, from.intents), tools := Or(ov.tools, from.tools))
  }

  /** `digest` stands for the content hash of a canonical document. */
  function BuildFork(base: Entry, from: Definition, name: string, version: string, ov: Overrides,
                     digest: Definition -> string): Option<Entry>
  {
    if base.def.metadata.fork.Some? || ParseForkName(name).None? then None
    else
      var doc := Edited(base, from, ParseForkName(name).value.scope, name, version, ov);
      if Parses(doc) && Narrows(base, Entry(doc, digest(doc))) then Some(Entry(doc, digest(doc))) else None
  }

  /** d is `from` under the fork's identity with the overrides given in place, and in
      everything else as it was. */
  predicate IsEdit(base: Entry, from: Definition, name: string, version: string, ov: Overrides, d: Definition)
    requires ParseForkName(name).Some?
  {
    && d.metadata.name == name && d.metadata.version == version
    && d.metadata.owner == "acct:" + ParseForkName(name).value.scope
    && d.metadata.isPrivate && d.metadata.status == Active
    && d.metadata.fork == Some(ForkRef(base.def.metadata.name, base.def.metadata.version, base.digest))
    && d.metadata.title == from.metadata.title && d.metadata.description == from.metadata.description
    && d.metadata.tags == from.metadata.tags && d.metadata.examples == from.metadata.examples
    && Given(ov.instructions, from.instructions, d.instructions) && Given(ov.intents, from.intents, d.intents)
    && Given(ov.tools, from.tools, d.tools) && Given(ov.limits, from.defaults.limits, d.defaults.limits)
    && Given(ov.ceilings, from.defaults.ceilings, d.defaults.ceilings)
    && Given(ov.disclosureRequired, from.defaults.disclosureRequired, d.defaults.disclosureRequired)
    && d.defaults.mode == from.defaults.mode && d.defaults.disclosureText == from.defaults.disclosureText
    && d.apiVersion == from.apiVersion && d.variables == from.variables && d.records == from.records
    && d.escalation == from.escalation && d.execution == from.execution
  }

  /** An override that is given is the value, otherwise the old value is. */
  predicate Given<T(==)>(ov: Option<T>, old': T, now: T) {
    (ov.Some? && now == ov.value) || (ov.None? && now == old')
  }

  /** A fork is built exactly when the base is no fork, the name is a fork's and the
      edit of `from` parses and narrows the base; what is built is that edit. */
  lemma BuildForkMeans(base: Entry, from: Definition, name: string, version: string, ov: Overrides,
                       digest: Definition -> string, d: Definition)
    ensures BuildFork(base, from, name, version, ov, digest) == Some(Entry(d, digest(d))) <==>
            && base.def.metadata.fork.None? && ParseForkName(name).Some? && IsEdit(base, from, name, version, ov, d)
            && Parses(d) && Narrows(base, Entry(d, digest(d)))
  {
    if ParseForkName(name).Some? {
      var e := Edited(base, from, ParseForkName(name).value.scope, name, version, ov);
      assert IsEdit(base, from, name, version, ov, e);
      if IsEdit(base, from, name, version, ov, d) { assert d.metadata == e.metadata && d.defaults == e.defaults; }
    }
  }

  const NO_OVERRIDES := Overrides(None, None, None, None, None, None)

  lemma NarrowsItself(base: Entry, fork: Entry)
    requires WellFormed(base.def) && NamesBase(base, fork) && fork.def.metadata.status == Active
    requires fork.def == base.def.(metadata := fork.def.metadata)
    requires fork.def.metadata.tags == base.def.metadata.tags && fork.def.metadata.examples == base.def.metadata.examples
    ensures Narrows(base, fork) <==> Utf8Length(base.def.instructions) <= 16384 && !HasDelimiter(base.def.instructions)
  {
    forall i, k | 0 <= k < |base.def.intents| && 0 <= i < |base.def.intents| && base.def.intents[k].name == base.def.intents[i].name
      ensures i == k
    {
    }
  }

  /** A catalog assistant can be forked as it is, under any valid name and version,
      exactly when its instructions keep to a fork's size and hold no delimiter. */
  lemma UnchangedForkBuilds(base: Entry, scope: string, slug: string, version: string, digest: Definition -> string)
    requires Parses(base.def) && base.def.metadata.fork.None? && CatalogName(base.def.metadata.name)
    requires OwnerScope(scope) && ForkSlug(slug) && Canonical(version)
    ensures BuildFork(base, base.def, ForkName(base.def.metadata.name, scope, slug), version, NO_OVERRIDES, digest).Some? <==>
            Utf8Length(base.def.instructions) <= 16384 && !HasDelimiter(base.def.instructions)
  {
    var name := ForkName(base.def.metadata.name, scope, slug);
    ForkNameRoundTrip(base.def.metadata.name, scope, slug, name);
    var d := Edited(base, base.def, scope, name, version, NO_OVERRIDES);
    assert d.defaults == base.def.defaults && d == base.def.(metadata := d.metadata);
    assert IsForkOf(d.metadata, scope, slug);
    MetadataMeans(d.metadata);
    NarrowsItself(base, Entry(d, digest(d)));
  }

  function WithoutVersion(d: Definition): Definition { d.(metadata := d.metadata.(version := "")) }

  function WithoutText(d: Definition): Definition { WithoutVersion(d).(instructions := "") }

  function ForkBump(prev: Definition, next: Definition): Bump {
    if WithoutVersion(prev) == WithoutVersion(next) then NoBump
    else if WithoutText(prev) == WithoutText(next) then Patch
    else Minor
  }

  /** The bump says exactly what changed between two versions. */
  lemma BumpMeaning(prev: Definition, next: Definition)
    ensures ForkBump(prev, next) == NoBump <==>
            next == prev.(metadata := prev.metadata.(version := next.metadata.version))
    ensures ForkBump(prev, next) == Patch <==>
            && next.instructions != prev.instructions
            && next == prev.(metadata := prev.metadata.(version := next.metadata.version), instructions := next.instructions)
  {
    assert next.metadata == next.metadata.(version := "").(version := next.metadata.version);
    assert prev.metadata.(version := next.metadata.version) == prev.metadata.(version := "").(version := next.metadata.version);
    assert WithoutVersion(next).metadata == next.metadata.(version := "");
    assert WithoutText(next).metadata == next.metadata.(version := "");
  }

  datatype Update = Update(entry: Entry, after: string, bump: Bump)

  /** UpdateFork up to the store: the version to insert after the latest one. */
  function UpdateFork(base: Entry, latest: Definition, ov: Overrides, digest: Definition -> string): Option<Update> {
    var name, version := latest.metadata.name, latest.metadata.version;
    var draft := BuildFork(base, latest, name, version, ov, digest);
    if draft.None? then None
    else
      var bump := ForkBump(latest, draft.value.def);
      if bump == NoBump || !ReadsAsInts(Split(version, '.')) then None
      else
        var fork := BuildFork(base, latest, name, Bumped(Split(version, '.'), bump), ov, digest);
        if fork.None? then None else Some(Update(fork.value, version, bump))
  }

  lemma VersionIsImmaterial(base: Entry, from: Definition, scope: string, name: string, v: string, w: string,
                            ov: Overrides, digest: Definition -> string)
    ensures var x, y := Edited(base, from, scope, name, v, ov), Edited(base, from, scope, name, w, ov);
            && (WellFormed(x) <==> WellFormed(y)) && (MetadataOk(x.metadata) <==> MetadataOk(y.metadata))
            && (Narrows(base, Entry(x, digest(x))) <==> Narrows(base, Entry(y, digest(y))))
            && WithoutVersion(x) == WithoutVersion(y) && WithoutText(x) == WithoutText(y)
  {
    var x, y := Edited(base, from, scope, name, v, ov), Edited(base, from, scope, name, w, ov);
    assert y == x.(metadata := x.metadata.(version := w));
  }

  /** What an update stores: a fork that still narrows its base, under a version
      strictly later than the one it follows, whose bump, computed on the draft,
      is the bump between the two stored versions. */
  lemma UpdateForkStores(base: Entry, latest: Definition, ov: Overrides, digest: Definition -> string)
    requires Canonical(latest.metadata.version) && InRange(latest.metadata.version)
    requires UpdateFork(base, latest, ov, digest).Some?
    ensures var u := UpdateFork(base, latest, ov, digest).value;
            && Narrows(base, u.entry) && Parses(u.entry.def)
            && u.entry.def.metadata.name == latest.metadata.name && u.after == latest.metadata.version
            && VersionLess(u.after, u.entry.def.metadata.version)
            && u.bump == ForkBump(latest, u.entry.def) && u.bump != NoBump
            && ParseForkName(latest.metadata.name).Some?
            && IsEdit(base, latest, latest.metadata.name, u.entry.def.metadata.version, ov, u.entry.def)
  {
    var name, version := latest.metadata.name, latest.metadata.version;
    var u := UpdateFork(base, latest, ov, digest).value;
    NextIncreases(version, u.bump);
    VersionIsImmaterial(base, latest, ParseForkName(name).value.scope, name, version, u.entry.def.metadata.version, ov, digest);
  }

  /** Under another version the same edit builds exactly if that version is canonical. */
  lemma Rebuilds(base: Entry, from: Definition, name: string, v: string, w: string, ov: Overrides, digest: Definition -> string)
    requires BuildFork(base, from, name, v, ov, digest).Some?
    ensures BuildFork(base, from, name, w, ov, digest).Some? <==> Canonical(w)
  {
    VersionIsImmaterial(base, from, ParseForkName(name).value.scope, name, v, w, ov, digest);
  }

  /** The second build never fails where the draft was built, except when the
      bumped component is the largest int. */
  lemma UpdateForkFails(base: Entry, latest: Definition, ov: Overrides, digest: Definition -> string)
    requires Canonical(latest.metadata.version) && InRange(latest.metadata.version)
    requires BuildFork(base, latest, latest.metadata.name, latest.metadata.version, ov, digest).Some?
    ensures var bump := ForkBump(latest, BuildFork(base, latest, latest.metadata.name, latest.metadata.version, ov, digest).value.def);
            UpdateFork(base, latest, ov, digest).Some? <==> bump != NoBump && Bumps(latest.metadata.version, bump) < MAX_INT
  {
    var name, version := latest.metadata.name, latest.metadata.version;
    var bump := ForkBump(latest, BuildFork(base, latest, name, version, ov, digest).value.def);
    if bump != NoBump {
      NextIncreases(version, bump);
      Rebuilds(base, latest, name, version, Bumped(Split(version, '.'), bump), ov, digest);
    }
  }

  // ----- ListForks -----

  datatype Row<N> = Row(name: N, version: string, digest: string, base: ForkRef)

  datatype Summary<N> = Summary(name: N, base: ForkRef, versions: seq<Row<N>>, latest: string)

  /** The rows of one fork, in order. */
  function RowsOf<N(==)>(rows: seq<Row<N>>, name: N): seq<Row<N>> {
    if rows == [] then []
    else
      var last := rows[|rows| - 1];
      RowsOf(rows[..|rows| - 1], name) + (if last.name == name then [last] else [])
  }

  type Order = (string, string) -> bool

  /** The running latest version over a fork's rows. */
  function Latest<N(==)>(less: Order, versions: seq<Row<N>>): string {
    if versions == [] then ""
    else
      var prev, last := Latest(less, versions[..|versions| - 1]), versions[|versions| - 1];
      if prev == "" || less(prev, last.version) then last.version else prev
  }

  predicate HasSummary<N(==)>(out: seq<Summary<N>>, name: N) {
    exists j :: 0 <= j < |out| && out[j].name == name
  }

  predicate DistinctNames<N(==)>(out: seq<Summary<N>>) {
    forall i, j :: 0 <= i < j < |out| ==> out[i].name != out[j].name
  }

  predicate Covers<N(==)>(rows: seq<Row<N>>, out: seq<Summary<N>>) {
    forall r :: r in rows ==> HasSummary(out, r.name)
  }

  predicate SummaryOf<N(==)>(rows: seq<Row<N>>, s: Summary<N>) {
    s.versions == RowsOf(rows, s.name) && s.versions != [] && s.base == s.versions[0].base
  }

  /** Each fork of the rows has exactly one summary, holding exactly its rows in order. */
  predicate Grouped<N(==)>(rows: seq<Row<N>>, out: seq<Summary<N>>) {
    && DistinctNames(out) && Covers(rows, out)
    && forall j :: 0 <= j < |out| ==> SummaryOf(rows, out[j])
  }

  lemma RowsOfAppend<N>(rows: seq<Row<N>>, r: Row<N>, name: N)
    ensures RowsOf(rows + [r], name) == RowsOf(rows, name) + (if r.name == name then [r] else [])
  {
    assert (rows + [r])[..|rows|] == rows;
  }

  lemma {:induction false} RowsOfMembers<N>(rows: seq<Row<N>>, name: N)
    ensures forall r :: r in RowsOf(rows, name) ==> r in rows
    ensures (forall r :: r in rows ==> r.name != name) ==> RowsOf(rows, name) == []
  {
    if rows != [] {
      RowsOfMembers(rows[..|rows| - 1], name);
    }
  }

  lemma CoversMore<N>(rows: seq<Row<N>>, r: Row<N>, out: seq<Summary<N>>, next: seq<Summary<N>>)
    requires Covers(rows, out) && |out| <= |next| && HasSummary(next, r.name)
    requires forall j :: 0 <= j < |out| ==> next[j].name == out[j].name
    ensures Covers(rows + [r], next)
  {
    forall x | x in rows + [r] ensures HasSummary(next, x.name) {
      if x in rows {
        var j :| 0 <= j < |out| && out[j].name == x.name;
        assert next[j].name == x.name;
      } else {
        assert x == r;
      }
    }
  }

  lemma OtherSummary<N>(rows: seq<Row<N>>, r: Row<N>, s: Summary<N>)
    requires SummaryOf(rows, s) && s.name != r.name
    ensures SummaryOf(rows + [r], s)
  {
    RowsOfAppend(rows, r, s.name);
  }

  lemma OwnSummary<N>(rows: seq<Row<N>>, r: Row<N>, s: Summary<N>, latest: string)
    requires SummaryOf(rows, s) && s.name == r.name
    ensures SummaryOf(rows + [r], s.(versions := s.versions + [r], latest := latest))
  {
    RowsOfAppend(rows, r, s.name);
  }

  lemma FirstSummary<N>(rows: seq<Row<N>>, r: Row<N>)
    requires forall x :: x in rows ==> x.name != r.name
    ensures SummaryOf(rows + [r], Summary(r.name, r.base, [r], r.version))
  {
    RowsOfAppend(rows, r, r.name);
    RowsOfMembers(rows, r.name);
  }

  lemma Uncovered<N>(rows: seq<Row<N>>, out: seq<Summary<N>>, name: N)
    requires Covers(rows, out) && !HasSummary(out, name)
    ensures forall x :: x in rows ==> x.name != name
  {
  }

  lemma DistinctNew<N>(out: seq<Summary<N>>, s: Summary<N>)
    requires DistinctNames(out) && !HasSummary(out, s.name)
    ensures DistinctNames(out + [s])
  {
  }

  lemma GroupNew<N>(rows: seq<Row<N>>, r: Row<N>, out: seq<Summary<N>>)
    requires Grouped(rows, out) && !HasSummary(out, r.name)
    ensures Grouped(rows + [r], out + [Summary(r.name, r.base, [r], r.version)])
  {
    var s := Summary(r.name, r.base, [r], r.version);
    var next := out + [s];
    assert Covers(rows + [r], next) by {
      assert next[|out|].name == r.name;
      CoversMore(rows, r, out, next);
    }
    DistinctNew(out, s);
    assert SummaryOf(rows + [r], s) by {
      Uncovered(rows, out, r.name);
      FirstSummary(rows, r);
    }
    forall j | 0 <= j < |next| ensures SummaryOf(rows + [r], next[j]) {
      if j < |out| { OtherSummary(rows, r, out[j]); }
    }
  }

  lemma GroupOld<N>(rows: seq<Row<N>>, r: Row<N>, out: seq<Summary<N>>, j: nat, latest: string)
    requires Grouped(rows, out) && j < |out| && out[j].name == r.name
    ensures Grouped(rows + [r], out[j := out[j].(versions := out[j].versions + [r], latest := latest)])
  {
    var s := out[j].(versions := out[j].versions + [r], latest := latest);
    var next := out[j := s];
    assert Covers(rows + [r], next) by {
      assert next[j].name == r.name;
      CoversMore(rows, r, out, next);
    }
    assert DistinctNames(next);
    OwnSummary(rows, r, out[j], latest);
    forall i | 0 <= i < |next| ensures SummaryOf(rows + [r], next[i]) {
      if i != j { OtherSummary(rows, r, out[i]); }
    }
  }

  predicate LatestOk<N(==)>(less: Order, s: Summary<N>) { s.latest == Latest(less, s.versions) }

  lemma LatestAppend<N>(less: Order, versions: seq<Row<N>>, r: Row<N>)
    ensures Latest(less, versions + [r]) ==
            var prev := Latest(less, versions); if prev == "" || less(prev, r.version) then r.version else prev
  {
    assert (versions + [r])[..|versions|] == versions;
  }

  /** `idx` finds each fork's summary. */
  ghost predicate Indexed<N>(out: seq<Summary<N>>, idx: map<N, nat>) {
    && (forall name :: name in idx ==> idx[name] < |out| && out[idx[name]].name == name)
    && (forall j :: 0 <= j < |out| ==> out[j].name in idx)
  }

  ghost predicate AllLatest<N>(less: Order, out: seq<Summary<N>>) {
    forall j :: 0 <= j < |out| ==> LatestOk(less, out[j])
  }

  lemma StepNew<N>(less: Order, out: seq<Summary<N>>, idx: map<N, nat>, r: Row<N>)
    requires Indexed(out, idx) && AllLatest(less, out) && r.name !in idx
    ensures !HasSummary(out, r.name)
    ensures var next := out + [Summary(r.name, r.base, [r], r.version)];
            Indexed(next, idx[r.name := |out|]) && AllLatest(less, next)
  {
    LatestAppend(less, [], r);
    assert [] + [r] == [r];
  }

  lemma StepOld<N>(less: Order, out: seq<Summary<N>>, idx: map<N, nat>, r: Row<N>, j: nat, latest: string)
    requires Indexed(out, idx) && AllLatest(less, out) && j < |out|
    requires latest == if out[j].latest == "" || less(out[j].latest, r.version) then r.version else out[j].latest
    ensures var next := out[j := out[j].(versions := out[j].versions + [r], latest := latest)];
            Indexed(next, idx) && AllLatest(less, next)
  {
    LatestAppend(less, out[j].versions, r);
  }

  method GroupRows<N(==)>(rows: seq<Row<N>>, less: Order) returns (out: seq<Summary<N>>)
    ensures Grouped(rows, out) && AllLatest(less, out)
  {
    out := [];
    var idx: map<N, nat> := map[];
    for k := 0 to |rows|
      invariant Grouped(rows[..k], out)
      invariant Indexed(out, idx)
      invariant AllLatest(less, out)
    {
      var r := rows[k];
      assert rows[..k + 1] == rows[..k] + [r];
      if r.name !in idx {
        StepNew(less, out, idx, r);
        GroupNew(rows[..k], r, out);
        idx := idx[r.name := |out|];
        out := out + [Summary(r.name, r.base, [r], r.version)];
      } else {
        var j := idx[r.name];
        var latest := if out[j].latest == "" || less(out[j].latest, r.version) then r.version else out[j].latest;
        StepOld(less, out, idx, r, j, latest);
        GroupOld(rows[..k], r, out, j, latest);
        out := out[j := out[j].(versions := out[j].versions + [r], latest := latest)];
      }
    }
    assert rows[..|rows|] == rows;
  }

  // ----- Latest is the maximum -----

  ghost predicate OrdersOn(less: Order, dom: set<string>) {
    && (forall a :: a in dom ==> a != "" && !less(a, a))
    && (forall a, b, c :: a in dom && b in dom && c in dom && less(a, b) && less(b, c) ==> less(a, c))
  }

  /** `latest` is one of the versions, and none is later. */
  ghost predicate IsMaximum<N>(less: Order, latest: string, versions: seq<Row<N>>) {
    && (exists r :: r in versions && r.version == latest)
    && (forall r :: r in versions ==> !less(latest, r.version))
  }

  lemma MaximumGrows<N>(less: Order, dom: set<string>, latest: string, front: seq<Row<N>>, last: Row<N>)
    requires OrdersOn(less, dom) && IsMaximum(less, latest, front) && latest in dom && last.version in dom
    requires forall r :: r in front ==> r.version in dom
    ensures IsMaximum(less, if less(latest, last.version) then last.version else latest, front + [last])
  {
    var versions := front + [last];
    assert last in versions;
    if less(latest, last.version) {
      forall r | r in versions ensures !less(last.version, r.version) {
        assert less(last.version, r.version) ==> less(latest, r.version);
      }
    } else {
      var r :| r in front && r.version == latest;
      assert r in versions;
    }
  }

  lemma MaximumOfOne<N>(less: Order, dom: set<string>, r: Row<N>)
    requires OrdersOn(less, dom) && r.version in dom
    ensures IsMaximum(less, r.version, [r]) && Latest(less, [r]) == r.version
  {
    LatestAppend(less, [], r);
    assert [] + [r] == [r] && r in [r];
  }

  lemma {:induction false} LatestIsMaximum<N>(less: Order, dom: set<string>, versions: seq<Row<N>>)
    requires versions != [] && OrdersOn(less, dom) && forall r :: r in versions ==> r.version in dom
    ensures IsMaximum(less, Latest(less, versions), versions) && Latest(less, versions) in dom
  {
    var front, last := versions[..|versions| - 1], versions[|versions| - 1];
    assert last in versions;
    if front == [] {
      assert versions == [last];
      MaximumOfOne(less, dom, last);
    } else {
      assert versions == front + [last];
      assert forall r :: r in front ==> r in versions;
      LatestIsMaximum(less, dom, front);
      LatestAppend(less, front, last);
      MaximumGrows(less, dom, Latest(less, front), front, last);
    }
  }

  lemma VersionLessOrders(dom: set<string>)
    requires forall v :: v in dom ==> Canonical(v) && InRange(v)
    ensures OrdersOn(VersionLess, dom)
  {
    forall a | a in dom ensures a != "" && !VersionLess(a, a) {
      NotEmpty(a);
      StrictTotalOrder(a, a, a);
    }
    forall a, b, c | a in dom && b in dom && c in dom && VersionLess(a, b) && VersionLess(b, c)
      ensures VersionLess(a, c)
    {
      StrictTotalOrder(a, b, c);
    }
  }

  lemma NotEmpty(v: string)
    requires Canonical(v)
    ensures v != ""
  {
    assert Split("", '.') == [""];
  }

  /** Every row is placed once, and on canonical versions in range Latest is the
      maximum of its fork's versions. */
  method ListForks(rows: seq<Row<string>>) returns (out: seq<Summary<string>>)
    ensures Grouped(rows, out)
    ensures (forall r :: r in rows ==> Canonical(r.version) && InRange(r.version)) ==>
              forall j :: 0 <= j < |out| ==> IsMaximum(VersionLess, out[j].latest, out[j].versions)
  {
    out := GroupRows(rows, VersionLess);
    if forall r :: r in rows ==> Canonical(r.version) && InRange(r.version) {
      ListedLatest(rows, out);
    }
  }

  lemma ListedLatest<N>(rows: seq<Row<N>>, out: seq<Summary<N>>)
    requires Grouped(rows, out) && AllLatest(VersionLess, out)
    requires forall r :: r in rows ==> Canonical(r.version) && InRange(r.version)
    ensures forall j :: 0 <= j < |out| ==> IsMaximum(VersionLess, out[j].latest, out[j].versions)
  {
    var dom := set r | r in rows :: r.version;
    VersionLessOrders(dom);
    forall j | 0 <= j < |out| ensures IsMaximum(VersionLess, out[j].latest, out[j].versions) {
      assert SummaryOf(rows, out[j]) && LatestOk(VersionLess, out[j]);
      RowsOfMembers(rows, out[j].name);
      LatestIsMaximum(VersionLess, dom, out[j].versions);
    }
  }
}
