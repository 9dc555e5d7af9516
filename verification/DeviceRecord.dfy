/** The Local Bridge device record: one file that activate runs and the daemon
    read, change and rewrite under a lock, with network round trips in between
    (cmd/local/config.go). */
module DeviceRecord {
  import opened Wrappers
  import Text

  // ----- the record -----

  /** A public key: the one derived from a seed, or some other 32 bytes. */
  datatype PubKey = PubOf(seed: int) | OtherPub(n: int)

  /** A stored key field: empty, undecodable or of the wrong length, or a key. */
  datatype SeedField = NoSeed | BadSeed | Seed(seed: int)

  datatype PubField = NoPub | BadPub | Pub(key: PubKey)

  datatype Expiry = NoExpiry | BadExpiry(text: string) | At(time: int)

  datatype Credential = Credential(deviceID: string, token: string, expiry: Expiry, jti: string)

  const NO_CREDENTIAL := Credential("", "", NoExpiry, "")

  datatype Record = Record(regKey: string, seed: SeedField, pub: PubField, cred: Credential)

  datatype File = Absent | Garbage | Stored(rec: Record)

  /** readDeviceRecord: a missing or unparseable file reads as an empty record. */
  function Read(f: File): Record {
    if f.Stored? then f.rec else Record("", NoSeed, NoPub, NO_CREDENTIAL)
  }

  /** deviceIdentityUsable: both halves decode and are a pair. */
  function Identity(r: Record): Option<PubKey> {
    if r.seed.Seed? && r.pub == Pub(PubOf(r.seed.seed)) then Some(r.pub.key) else None
  }

  predicate KeysBlank(r: Record) { r.seed.NoSeed? && r.pub.NoPub? }

  function Dots(s: string): nat {
    if s == "" then 0 else (if s[0] == '.' then 1 else 0) + Dots(s[1..])
  }

  predicate CredentialUsable(c: Credential) {
    c.deviceID != "" && c.token != "" && c.expiry != NoExpiry && c.jti != "" && Dots(c.token) == 2
  }

  lemma {:induction false} DotsSplit(s: string)
    ensures Dots(s) == |Text.Split(s, '.')| - 1
  {
    if s != "" { DotsSplit(s[1..]); }
  }

  /** A credential is usable if all of it is there and its token has three segments. */
  lemma UsableMeans(c: Credential)
    ensures CredentialUsable(c) <==>
            && c.deviceID != "" && c.token != "" && c.expiry != NoExpiry && c.jti != ""
            && |Text.Split(c.token, '.')| == 3
  {
    DotsSplit(c.token);
  }

  // ----- the two writers -----

  /** loadOrCreateDeviceIdentity on the record it read. */
  function Loaded(r: Record, freshSeed: int, freshKey: string): Record {
    if Identity(r).Some? then
      if r.regKey == "" then r.(regKey := freshKey) else r
    else
      var k := r.(seed := Seed(freshSeed), pub := Pub(PubOf(freshSeed)));
      if !KeysBlank(r) then k.(regKey := freshKey, cred := NO_CREDENTIAL)
      else if r.regKey == "" then k.(regKey := freshKey)
      else k
  }

  /** The stored credential names the same device and expires later. */
  predicate Newer(r: Record, c: Credential) {
    && r.cred.deviceID == c.deviceID && CredentialUsable(r.cred)
    && r.cred.expiry.At? && c.expiry.At? && r.cred.expiry.time > c.expiry.time
  }

  function Merged(f: File, signing: PubKey, c: Credential): File {
    var r := Read(f);
    if Identity(r) != Some(signing) || Newer(r, c) then f else Stored(r.(cred := c))
  }

  /** A usable key is never touched, nor is a credential beside it; an unusable one
      is replaced, and then a credential goes with the key it was issued to. A
      registration key is kept unless it is missing or belongs to a replaced key. */
  lemma LoadedMeans(r: Record, freshSeed: int, freshKey: string)
    ensures var l, replaced := Loaded(r, freshSeed, freshKey), Identity(r).None? && !(r.seed.NoSeed? && r.pub.NoPub?);
            && (Identity(r).Some? ==> l.seed == r.seed && l.pub == r.pub)
            && (Identity(r).None? ==> l.seed == Seed(freshSeed) && l.pub == Pub(PubOf(freshSeed)))
            && l.cred == (if replaced then Credential("", "", NoExpiry, "") else r.cred)
            && l.regKey == (if replaced || r.regKey == "" then freshKey else r.regKey)
  {
  }

  /** Loading again changes nothing. */
  lemma LoadIsIdempotent(r: Record, freshSeed: int, freshKey: string, seed: int, key: string)
    requires freshKey != ""
    ensures var l := Loaded(r, freshSeed, freshKey); Loaded(l, seed, key) == l
  {
  }

  /** A merge changes the credential alone, and does so under the stored key exactly
      unless a usable credential of the same device is known to expire later. */
  lemma MergedMeans(f: File, signing: PubKey, c: Credential)
    ensures var r, r' := Read(f), Read(Merged(f, signing, c));
            && r' == r.(cred := r'.cred)
            && (Identity(r) != Some(signing) ==> r' == r)
            && (Identity(r) == Some(signing) ==>
                  if r.cred.deviceID != c.deviceID || !CredentialUsable(r.cred) || !r.cred.expiry.At? || !c.expiry.At?
                  then r'.cred == c
                  else r'.cred == if r.cred.expiry.time > c.expiry.time then r.cred else c)
  {
  }

  class DeviceRecordFile {
    var file: File

    method LoadOrCreate(freshSeed: int, freshKey: string) returns (rec: Record, pub: PubKey)
      modifies this
      ensures rec == Loaded(old(Read(file)), freshSeed, freshKey)
      ensures file == Stored(rec) && Identity(rec) == Some(pub)
    {
      rec := Read(file);
      var usable := Identity(rec);
      if usable.Some? {
        pub := usable.value;
        if rec.regKey == "" {
          rec := rec.(regKey := freshKey);
          file := Stored(rec);
        }
        return;
      }
      var firstTime := rec.seed.NoSeed? && rec.pub.NoPub?;
      pub := PubOf(freshSeed);
      rec := rec.(seed := Seed(freshSeed), pub := Pub(pub));
      if !firstTime {
        rec := rec.(regKey := freshKey);
        rec := rec.(cred := NO_CREDENTIAL);
      } else if rec.regKey == "" {
        rec := rec.(regKey := freshKey);
      }
      file := Stored(rec);
    }

    method MergeCredential(signing: PubKey, c: Credential) returns (merged: bool)
      modifies this
      ensures file == Merged(old(file), signing, c)
      ensures merged <==> Identity(old(Read(file))) == Some(signing) && !Newer(old(Read(file)), c)
      ensures merged ==> Read(file).cred == c
    {
      var rec := Read(file);
      var current := Identity(rec);
      if current.None? || current.value != signing { return false; }
      if rec.cred.deviceID == c.deviceID && CredentialUsable(rec.cred) {
        if rec.cred.expiry.At? && c.expiry.At? && rec.cred.expiry.time > c.expiry.time { return false; }
      }
      file := Stored(rec.(cred := c));
      merged := true;
    }
  }

  // ----- every interleaving of activate runs, daemons and delayed merges -----

  /** A registration key as sent to the server beside a public key. */
  datatype Pairing = Pairing(regKey: string, pub: PubKey)

  /** `issued` is the server's: which key proved possession for each credential.
      `signing` holds the keys some process has loaded. */
  datatype World = World(file: File, issued: map<Credential, PubKey>, paired: set<Pairing>, signing: set<PubKey>)

  datatype Step =
    | Activate(freshSeed: int, freshKey: string)
    | DaemonStart
    | Issue(pub: PubKey, cred: Credential)
    | Merge(pub: PubKey, cred: Credential)  // delayed at will, and repeatable
    | Damage(file: File)

  /** The file is lost or unparseable, its registration key is lost, or its key
      fields no longer hold a key; both are never blanked while it stays a record. */
  predicate DamageOk(f: File, g: File) {
    || !g.Stored?
    || (f.Stored? && g.rec == f.rec.(regKey := ""))
    || (f.Stored? && g.rec == f.rec.(seed := g.rec.seed, pub := g.rec.pub) &&
        Identity(g.rec).None? && !KeysBlank(g.rec))
  }

  predicate Enabled(w: World, s: Step) {
    match s
    case Activate(_, freshKey) => freshKey != "" && forall p :: p in w.paired ==> p.regKey != freshKey
    case DaemonStart => Identity(Read(w.file)).Some? && CredentialUsable(Read(w.file).cred)
    case Issue(pub, cred) => pub in w.signing && cred !in w.issued && CredentialUsable(cred)
    case Merge(pub, cred) => cred in w.issued && w.issued[cred] == pub
    case Damage(g) => DamageOk(w.file, g)
  }

  function Apply(w: World, s: Step): World
    requires Enabled(w, s)
  {
    match s
    case Activate(freshSeed, freshKey) =>
      var r := Loaded(Read(w.file), freshSeed, freshKey);
      var pub := PubOf(r.seed.seed);
      w.(file := Stored(r), paired := w.paired + {Pairing(r.regKey, pub)}, signing := w.signing + {pub})
    case DaemonStart => w.(signing := w.signing + {Identity(Read(w.file)).value})
    case Issue(pub, cred) => w.(issued := w.issued[cred := pub])
    case Merge(pub, cred) => w.(file := Merged(w.file, pub, cred))
    case Damage(g) => w.(file := g)
  }

  function Exec(w: World, steps: seq<Step>): Option<World>
    decreases |steps|
  {
    if steps == [] then Some(w)
    else if Enabled(w, steps[0]) then Exec(Apply(w, steps[0]), steps[1..])
    else None
  }

  /** A fresh machine, or a record from before devices had keys. */
  predicate Init(w: World) {
    && w.issued == map[] && w.paired == {} && w.signing == {}
    && (w.file.Absent? || (w.file.Stored? && KeysBlank(w.file.rec) && w.file.rec.cred == NO_CREDENTIAL))
  }

  // ----- coherence -----

  predicate CredentialCoherent(w: World, r: Record) {
    && (Identity(r).Some? && r.cred != NO_CREDENTIAL ==> r.cred in w.issued && w.issued[r.cred] == Identity(r).value)
    && (KeysBlank(r) ==> r.cred == NO_CREDENTIAL)
  }

  predicate PairingCoherent(w: World, r: Record) {
    && (Identity(r).Some? ==> forall p :: p in w.paired && p.regKey == r.regKey ==> p.pub == Identity(r).value)
    && (KeysBlank(r) ==> forall p :: p in w.paired ==> p.regKey != r.regKey)
  }

  predicate PairedOnce(w: World) {
    && (forall p, q :: p in w.paired && q in w.paired && p.regKey == q.regKey ==> p.pub == q.pub)
    && (forall p :: p in w.paired ==> p.regKey != "")
  }

  predicate Coherent(w: World) {
    CredentialCoherent(w, Read(w.file)) && PairingCoherent(w, Read(w.file)) && PairedOnce(w)
  }

  lemma CoherentStep(w: World, s: Step)
    requires Coherent(w) && Enabled(w, s)
    ensures Coherent(Apply(w, s))
  {
    var t, r := Apply(w, s), Read(w.file);
    if s.Activate? {
      var r' := Loaded(r, s.freshSeed, s.freshKey);
      assert Identity(r') == Some(PubOf(r'.seed.seed)) && r'.regKey != "";
    }
  }

  /** Over all runs: a stored credential beside a usable key was issued to that
      key, a record without keys holds none, and no registration key is ever sent
      with two public keys. */
  lemma {:induction false} AlwaysCoherent(w: World, steps: seq<Step>)
    requires Coherent(w) && Exec(w, steps).Some?
    ensures Coherent(Exec(w, steps).value)
    decreases |steps|
  {
    if steps != [] {
      CoherentStep(w, steps[0]);
      AlwaysCoherent(Apply(w, steps[0]), steps[1..]);
    }
  }

  lemma RecordStaysCoherent(w: World, steps: seq<Step>)
    requires Init(w) && Exec(w, steps).Some?
    ensures Coherent(Exec(w, steps).value)
  {
    AlwaysCoherent(w, steps);
  }

  /** Where the credential of a later record comes from. */
  ghost predicate CredFrom(steps: seq<Step>, before: Credential, now: Credential) {
    now == before || exists i :: 0 <= i < |steps| && steps[i].Merge? && steps[i].cred == now
  }

  /** While nothing is damaged, a record with its keys keeps both of them for good
      through any number of activate runs, and its credential changes by merges alone. */
  lemma {:induction false} KeysAreKept(w: World, steps: seq<Step>)
    requires Identity(Read(w.file)).Some? && Read(w.file).regKey != "" && Exec(w, steps).Some?
    requires forall i :: 0 <= i < |steps| ==> !steps[i].Damage?
    ensures var r, r' := Read(w.file), Read(Exec(w, steps).value.file);
            r'.(cred := r.cred) == r && CredFrom(steps, r.cred, r'.cred)
    decreases |steps|
  {
    if steps != [] {
      var mid := Apply(w, steps[0]);
      assert Read(mid.file).(cred := Read(w.file).cred) == Read(w.file);
      KeysAreKept(mid, steps[1..]);
      var now := Read(Exec(w, steps).value.file).cred;
      if i :| 0 <= i < |steps| - 1 && steps[1..][i].Merge? && steps[1..][i].cred == now {
        assert steps[i + 1] == steps[1..][i];
      }
    }
  }

  /** Why damage may not blank both key fields: of all damage to the keys of a
      provisioned record, exactly that one makes the next activate keep the old
      credential beside the new key, and send the old registration key with it. */
  lemma BlankedKeysBreakCoherence(w: World, r: Record, seed: SeedField, pub: PubField, freshSeed: int, freshKey: string)
    requires Coherent(w) && w.file == Stored(r) && Identity(r).Some? && CredentialUsable(r.cred)
    requires Pairing(r.regKey, Identity(r).value) in w.paired
    requires Identity(r.(seed := seed, pub := pub)).None? && PubOf(freshSeed) != Identity(r).value
    requires freshKey != "" && forall p :: p in w.paired ==> p.regKey != freshKey
    ensures var damaged := w.(file := Stored(r.(seed := seed, pub := pub)));
            var next := Apply(damaged, Activate(freshSeed, freshKey));
            && (CredentialCoherent(next, next.file.rec) <==> !KeysBlank(damaged.file.rec))
            && (PairedOnce(next) <==> !KeysBlank(damaged.file.rec))
  {
    var damaged := w.(file := Stored(r.(seed := seed, pub := pub)));
    var next := Apply(damaged, Activate(freshSeed, freshKey));
    if KeysBlank(damaged.file.rec) {
      assert next.file.rec.cred == r.cred && Identity(next.file.rec) == Some(PubOf(freshSeed));
      assert Pairing(r.regKey, Identity(r).value) in next.paired && Pairing(r.regKey, PubOf(freshSeed)) in next.paired;
    } else {
      forall p, q | p in next.paired && q in next.paired && p.regKey == q.regKey ensures p.pub == q.pub {
        assert p in w.paired || p == Pairing(freshKey, PubOf(freshSeed));
        assert q in w.paired || q == Pairing(freshKey, PubOf(freshSeed));
      }
    }
  }

  // ----- merges under one key and one device -----

  function MergeAll(f: File, signing: PubKey, cs: seq<Credential>): File {
    if cs == [] then f else Merged(MergeAll(f, signing, cs[..|cs| - 1]), signing, cs[|cs| - 1])
  }

  /** What a server returns for one device. */
  predicate WellFormedFor(device: string, cs: seq<Credential>) {
    forall i :: 0 <= i < |cs| ==> cs[i].deviceID == device && CredentialUsable(cs[i]) && cs[i].expiry.At?
  }

  /** The stored credential of this device, if it can hold off an older one. */
  function Standing(f: File, device: string): Option<int> {
    var c := Read(f).cred;
    if c.deviceID == device && CredentialUsable(c) && c.expiry.At? then Some(c.expiry.time) else None
  }

  /** The latest expiry among a start value and the credentials. */
  function Latest(start: Option<int>, cs: seq<Credential>): Option<int>
    requires forall i :: 0 <= i < |cs| ==> cs[i].expiry.At?
  {
    if cs == [] then start
    else
      var m, t := Latest(start, cs[..|cs| - 1]), cs[|cs| - 1].expiry.time;
      if m.Some? && m.value > t then m else Some(t)
  }

  /** Merging keeps the key and leaves the latest expiry standing. */
  lemma {:induction false} MergesKeepLatest(f: File, signing: PubKey, device: string, cs: seq<Credential>)
    requires Identity(Read(f)) == Some(signing) && WellFormedFor(device, cs)
    ensures Identity(Read(MergeAll(f, signing, cs))) == Some(signing)
    ensures Standing(MergeAll(f, signing, cs), device) == Latest(Standing(f, device), cs)
    ensures cs != [] ==> Read(MergeAll(f, signing, cs)).cred in [Read(f).cred] + cs
  {
    if cs != [] {
      var front, c := cs[..|cs| - 1], cs[|cs| - 1];
      MergesKeepLatest(f, signing, device, front);
      assert WellFormedFor(device, front) && c in cs;
    }
  }

  lemma {:induction false} LatestIsMaximum(start: Option<int>, cs: seq<Credential>)
    requires cs != [] && forall i :: 0 <= i < |cs| ==> cs[i].expiry.At?
    ensures Latest(start, cs).Some?
    ensures forall i :: 0 <= i < |cs| ==> cs[i].expiry.time <= Latest(start, cs).value
    ensures start.Some? ==> start.value <= Latest(start, cs).value
    ensures start == Some(Latest(start, cs).value) || exists i :: 0 <= i < |cs| && cs[i].expiry.time == Latest(start, cs).value
  {
    var front := cs[..|cs| - 1];
    if front != [] {
      LatestIsMaximum(start, front);
      if exists i :: 0 <= i < |front| && front[i].expiry.time == Latest(start, front).value {
        var i :| 0 <= i < |front| && front[i].expiry.time == Latest(start, front).value;
        assert cs[i] == front[i];
      }
    }
    assert cs[|cs| - 1].expiry.time <= Latest(start, cs).value;
  }

  lemma LatestGrows(cs: seq<Credential>, ds: seq<Credential>)
    requires cs != [] && ds != [] && forall c :: c in cs ==> c in ds
    requires forall i :: 0 <= i < |cs| ==> cs[i].expiry.At?
    requires forall i :: 0 <= i < |ds| ==> ds[i].expiry.At?
    ensures Latest(None, cs).Some? && Latest(None, ds).Some? && Latest(None, cs).value <= Latest(None, ds).value
  {
    LatestIsMaximum(None, cs);
    LatestIsMaximum(None, ds);
    var i :| 0 <= i < |cs| && cs[i].expiry.time == Latest(None, cs).value;
    assert cs[i] in ds;
    var j :| 0 <= j < |ds| && ds[j] == cs[i];
  }

  lemma SameMembers<T>(s: seq<T>, t: seq<T>)
    requires multiset(s) == multiset(t)
    ensures forall x :: x in s <==> x in t
    ensures |s| == |t|
  {
    assert forall x :: x in s <==> x in multiset(s);
    assert forall x :: x in t <==> x in multiset(t);
    assert |multiset(s)| == |s| && |multiset(t)| == |t|;
  }

  /** From a record holding no standing credential of this device, any order of the
      same merges ends with the same expiry: the maximum of the sequence. */
  lemma MergeOrderIsImmaterial(f: File, signing: PubKey, device: string, cs: seq<Credential>, ds: seq<Credential>)
    requires Identity(Read(f)) == Some(signing) && Standing(f, device).None?
    requires cs != [] && WellFormedFor(device, cs) && WellFormedFor(device, ds)
    requires multiset(cs) == multiset(ds)
    ensures var m := Standing(MergeAll(f, signing, cs), device);
            && m.Some? && m == Standing(MergeAll(f, signing, ds), device)
            && (forall i :: 0 <= i < |cs| ==> cs[i].expiry.time <= m.value)
            && (exists i :: 0 <= i < |cs| && cs[i].expiry.time == m.value)
  {
    assert Latest(None, cs) == Latest(None, ds) by {
      SameMembers(cs, ds);
      LatestGrows(cs, ds);
      LatestGrows(ds, cs);
    }
    assert Standing(MergeAll(f, signing, cs), device) == Latest(None, cs) by {
      MergesKeepLatest(f, signing, device, cs);
    }
    assert Standing(MergeAll(f, signing, ds), device) == Latest(None, ds) by {
      MergesKeepLatest(f, signing, device, ds);
    }
    LatestIsMaximum(None, cs);
  }

  /** Along the way the stored expiry of a device never decreases. */
  lemma {:induction false} ExpiryNeverDecreases(f: File, signing: PubKey, device: string, cs: seq<Credential>, i: nat)
    requires Identity(Read(f)) == Some(signing) && WellFormedFor(device, cs)
    requires i <= |cs|
    requires Standing(MergeAll(f, signing, cs[..i]), device).Some?
    ensures Standing(MergeAll(f, signing, cs), device).Some?
    ensures Standing(MergeAll(f, signing, cs[..i]), device).value <= Standing(MergeAll(f, signing, cs), device).value
  {
    if i == |cs| {
      assert cs[..i] == cs;
    } else {
      var front := cs[..|cs| - 1];
      assert front[..i] == cs[..i];
      ExpiryNeverDecreases(f, signing, device, front, i);
      MergesKeepLatest(f, signing, device, front);
    }
  }
}
