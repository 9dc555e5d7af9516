/** Fork version order and bumps (VersionLess and NextForkVersion). */
module Versions {
  import opened Wrappers
  import opened Text

  // ----- versions -----

  /** MAJOR.MINOR.PATCH as the definition schema's pattern has it. */
  predicate Canonical(v: string) {
    var p := Split(v, '.');
    |p| == 3 && Numeral(p[0]) && Numeral(p[1]) && Numeral(p[2])
  }

  function Part(v: string, i: nat): nat
    requires Canonical(v) && i < 3
  {
    NatOf(Split(v, '.')[i])
  }

  /** Every component fits Go's int. */
  predicate InRange(v: string)
    requires Canonical(v)
  {
    Part(v, 0) <= MAX_INT && Part(v, 1) <= MAX_INT && Part(v, 2) <= MAX_INT
  }

  /** Numeric precedence, section 11 of Semantic Versioning 2.0.0. */
  predicate Precedes(a: string, b: string)
    requires Canonical(a) && Canonical(b)
  {
    || Part(a, 0) < Part(b, 0)
    || (Part(a, 0) == Part(b, 0) && Part(a, 1) < Part(b, 1))
    || (Part(a, 0) == Part(b, 0) && Part(a, 1) == Part(b, 1) && Part(a, 2) < Part(b, 2))
  }

  /** VersionLess from component i of the split versions on; `text` is their
      order as strings, used when a component is not an int. */
  predicate LessFrom(pa: seq<string>, pb: seq<string>, text: bool, i: nat)
    decreases |pa| - i
  {
    if i >= |pa| || i >= |pb| then |pa| < |pb|
    else
      var x, y := Atoi(pa[i]), Atoi(pb[i]);
      if x.None? || y.None? then text
      else if x != y then x.value < y.value
      else LessFrom(pa, pb, text, i + 1)
  }

  predicate VersionLess(a: string, b: string) { LessFrom(Split(a, '.'), Split(b, '.'), StringLess(a, b), 0) }

  method CompareParts(pa: seq<string>, pb: seq<string>, text: bool) returns (less: bool)
    ensures less == LessFrom(pa, pb, text, 0)
  {
    var i := 0;
    while i < |pa| && i < |pb|
      invariant 0 <= i && LessFrom(pa, pb, text, 0) == LessFrom(pa, pb, text, i)
      decreases |pa| - i
    {
      var x, y := Atoi(pa[i]), Atoi(pb[i]);
      if x.None? || y.None? { return text; }
      if x.value != y.value { return x.value < y.value; }
      i := i + 1;
    }
    less := |pa| < |pb|;
  }

  lemma CanonicalAtoi(v: string, i: nat)
    requires Canonical(v) && i < 3
    ensures Atoi(Split(v, '.')[i]) == if Part(v, i) <= MAX_INT then Some(Part(v, i)) else None
  {
    AtoiNumeral(Split(v, '.')[i]);
  }

  /** The components read as these ints. */
  predicate Reads(v: string, x: int, y: int, z: int) {
    var p := Split(v, '.');
    |p| == 3 && Atoi(p[0]) == Some(x) && Atoi(p[1]) == Some(y) && Atoi(p[2]) == Some(z)
  }

  lemma LessOfInts(v: string, w: string, a: int, b: int, c: int, x: int, y: int, z: int)
    requires Reads(v, a, b, c) && Reads(w, x, y, z)
    ensures VersionLess(v, w) <==> a < x || (a == x && (b < y || (b == y && c < z)))
  {
    var p, q := Split(v, '.'), Split(w, '.');
    var text := StringLess(v, w);
    assert LessFrom(p, q, text, 3) == false;
    assert LessFrom(p, q, text, 2) == (c < z);
    assert LessFrom(p, q, text, 1) == (b < y || (b == y && c < z));
  }

  lemma CanonicalReads(v: string)
    requires Canonical(v) && InRange(v)
    ensures Reads(v, Part(v, 0), Part(v, 1), Part(v, 2))
  {
    CanonicalAtoi(v, 0);
    CanonicalAtoi(v, 1);
    CanonicalAtoi(v, 2);
  }

  /** On canonical versions in range VersionLess is numeric precedence. */
  lemma LessIsPrecedence(a: string, b: string)
    requires Canonical(a) && Canonical(b) && InRange(a) && InRange(b)
    ensures VersionLess(a, b) <==> Precedes(a, b)
  {
    CanonicalReads(a);
    CanonicalReads(b);
    LessOfInts(a, b, Part(a, 0), Part(a, 1), Part(a, 2), Part(b, 0), Part(b, 1), Part(b, 2));
  }

  /** A canonical version is determined by its components. */
  lemma PartsDetermine(a: string, b: string)
    requires Canonical(a) && Canonical(b) && forall i :: 0 <= i < 3 ==> Part(a, i) == Part(b, i)
    ensures a == b
  {
    var pa, pb := Split(a, '.'), Split(b, '.');
    forall i | 0 <= i < 3 ensures pa[i] == pb[i] {
      assert Part(a, i) == Part(b, i);
      NumeralInjective(pa[i], pb[i]);
    }
    assert pa == pb;
    JoinSplit(a, '.');
    JoinSplit(b, '.');
  }

  /** ... and so VersionLess is a strict total order on them. */
  lemma StrictTotalOrder(a: string, b: string, c: string)
    requires Canonical(a) && Canonical(b) && Canonical(c) && InRange(a) && InRange(b) && InRange(c)
    ensures !VersionLess(a, a)
    ensures !(VersionLess(a, b) && VersionLess(b, a))
    ensures a == b || VersionLess(a, b) || VersionLess(b, a)
    ensures VersionLess(a, b) && VersionLess(b, c) ==> VersionLess(a, c)
  {
    LessIsPrecedence(a, a);
    LessIsPrecedence(a, b);
    LessIsPrecedence(b, a);
    LessIsPrecedence(b, c);
    LessIsPrecedence(a, c);
    if !Precedes(a, b) && !Precedes(b, a) {
      forall i | 0 <= i < 3 ensures Part(a, i) == Part(b, i) {}
      PartsDetermine(a, b);
    }
  }

  // ----- exactly when it is an order -----

  predicate Bounded(v: string, x: nat, y: nat, z: nat) {
    Canonical(v) && Part(v, 0) <= x && Part(v, 1) <= y && Part(v, 2) <= z
  }

  /** VersionLess is irreflexive, total and transitive on the canonical versions
      whose components are at most x, y and z. */
  ghost predicate Orders(x: nat, y: nat, z: nat) {
    && (forall a :: Bounded(a, x, y, z) ==> !VersionLess(a, a))
    && (forall a, b :: Bounded(a, x, y, z) && Bounded(b, x, y, z) ==> a == b || VersionLess(a, b) || VersionLess(b, a))
    && (forall a, b, c :: Bounded(a, x, y, z) && Bounded(b, x, y, z) && Bounded(c, x, y, z) ==>
          (VersionLess(a, b) && VersionLess(b, c) ==> VersionLess(a, c)))
  }

  /** The version that is n in component i and zero elsewhere. */
  function Only(i: nat, n: nat): string {
    Render(if i == 0 then n else 0, if i == 1 then n else 0, if i == 2 then n else 0)
  }

  function Before(i: nat): string { if i == 0 then "" else if i == 1 then "0." else "0.0." }

  function After(i: nat): string { if i == 0 then ".0.0" else if i == 1 then ".0" else "" }

  lemma JoinDots(a: string, b: string, c: string)
    ensures Join([a, b, c], '.') == a + "." + b + "." + c
  {
    assert [a, b, c][1..] == [b, c] && [b, c][1..] == [c];
    assert Join([b, c], '.') == b + ['.'] + c;
  }

  lemma OnlyText(i: nat, n: nat)
    requires i < 3
    ensures Only(i, n) == Before(i) + Digits(n) + After(i)
  {
    var d := Digits(n);
    assert Itoa(0) == "0" && Itoa(n) == d;
    if i == 0 {
      JoinDots(d, "0", "0");
      assert d + "." + "0" + "." + "0" == "" + d + ".0.0";
    } else if i == 1 {
      JoinDots("0", d, "0");
      assert "0" + "." + d + "." + "0" == "0." + d + ".0";
    } else {
      JoinDots("0", "0", d);
      assert "0" + "." + "0" + "." + d == "0.0." + d + "";
    }
  }

  /** Versions that differ in one component, past the int range, compare as text. */
  lemma OnlyLessIsText(i: nat, m: nat, n: nat)
    requires i < 3 && (m > MAX_INT || n > MAX_INT)
    ensures VersionLess(Only(i, m), Only(i, n)) == StringLess(Only(i, m), Only(i, n))
  {
    var p, q := Split(Only(i, m), '.'), Split(Only(i, n), '.');
    RenderParts(if i == 0 then m else 0, if i == 1 then m else 0, if i == 2 then m else 0);
    RenderParts(if i == 0 then n else 0, if i == 1 then n else 0, if i == 2 then n else 0);
    AtoiItoa(0);
    AtoiItoa(m);
    AtoiItoa(n);
    var text := StringLess(Only(i, m), Only(i, n));
    assert LessFrom(p, q, text, i) == text;
    assert i >= 1 ==> LessFrom(p, q, text, i - 1) == text;
    assert i >= 2 ==> LessFrom(p, q, text, 0) == text;
  }

  lemma OnlyLessInRange(i: nat, m: nat, n: nat)
    requires i < 3 && m < n <= MAX_INT
    ensures VersionLess(Only(i, m), Only(i, n))
  {
    RenderReads(if i == 0 then m else 0, if i == 1 then m else 0, if i == 2 then m else 0);
    RenderReads(if i == 0 then n else 0, if i == 1 then n else 0, if i == 2 then n else 0);
    LessOfInts(Only(i, m), Only(i, n), if i == 0 then m else 0, if i == 1 then m else 0, if i == 2 then m else 0,
               if i == 0 then n else 0, if i == 1 then n else 0, if i == 2 then n else 0);
  }

  lemma {:induction false} SamePrefix(p: string, s: string, t: string)
    ensures StringLess(p + s, p + t) == StringLess(s, t)
  {
    if p == "" {
      assert p + s == s && p + t == t;
    } else {
      assert (p + s)[1..] == p[1..] + s && (p + t)[1..] == p[1..] + t;
      SamePrefix(p[1..], s, t);
    }
  }

  /** The order of the digits decides, if one of the first two differs. */
  lemma OnlyTextLess(i: nat, m: nat, n: nat)
    requires i < 3 && |Digits(m)| >= 2 && |Digits(n)| >= 2
    requires Digits(m)[0] < Digits(n)[0] || (Digits(m)[0] == Digits(n)[0] && Digits(m)[1] < Digits(n)[1])
    ensures StringLess(Only(i, m), Only(i, n))
  {
    var s, t := Digits(m) + After(i), Digits(n) + After(i);
    OnlyText(i, m);
    OnlyText(i, n);
    assert Only(i, m) == Before(i) + s && Only(i, n) == Before(i) + t;
    SamePrefix(Before(i), s, t);
    assert s[0] == Digits(m)[0] && t[0] == Digits(n)[0] && s[1..][0] == Digits(m)[1] && t[1..][0] == Digits(n)[1];
  }

  function Pow10(k: nat): nat { if k == 0 then 1 else 10 * Pow10(k - 1) }

  /** The numeral of a number between 92 and 93 times a power of ten starts with 92. */
  lemma {:induction false} StartsWith92(n: nat, k: nat)
    requires 92 * Pow10(k) <= n < 93 * Pow10(k)
    ensures "92" <= Digits(n)
  {
    if k == 0 {
      assert Digits(9) == "9" && Digits(92) == Digits(9) + "2";
    } else {
      StartsWith92(n / 10, k - 1);
    }
  }

  const PAST_INT: nat := MAX_INT + 1

  lemma CycleDigits()
    ensures |Digits(PAST_INT)| >= 2 && Digits(PAST_INT)[0] == '9' && Digits(PAST_INT)[1] == '2'
    ensures Digits(93) == "93" && Digits(100) == "100"
  {
    assert Pow10(5) == 100_000 && Pow10(9) == 1_000_000_000 && Pow10(13) == 10_000_000_000_000;
    assert Pow10(17) == 100_000_000_000_000_000;
    StartsWith92(PAST_INT, 17);
    assert Digits(9) == "9" && Digits(93) == Digits(9) + "3";
    assert Digits(1) == "1" && Digits(10) == Digits(1) + "0" && Digits(100) == Digits(10) + "0";
  }

  /** One past the int range already breaks the order, in whichever component:
      in the first, 9223372036854775808.0.0 < 93.0.0 < 100.0.0 < 9223372036854775808.0.0. */
  lemma OutOfRangeCycle(i: nat)
    requires i < 3
    ensures VersionLess(Only(i, PAST_INT), Only(i, 93)) && VersionLess(Only(i, 93), Only(i, 100))
    ensures VersionLess(Only(i, 100), Only(i, PAST_INT)) && !VersionLess(Only(i, PAST_INT), Only(i, PAST_INT))
  {
    CycleDigits();
    OnlyLessIsText(i, PAST_INT, 93);
    OnlyTextLess(i, PAST_INT, 93);
    OnlyLessInRange(i, 93, 100);
    OnlyLessIsText(i, 100, PAST_INT);
    OnlyTextLess(i, 100, PAST_INT);
    OnlyLessIsText(i, PAST_INT, PAST_INT);
    NotLessThanItself(Only(i, PAST_INT));
  }

  lemma {:induction false} NotLessThanItself(s: string)
    ensures !StringLess(s, s)
  {
    if s != "" { NotLessThanItself(s[1..]); }
  }

  lemma OnlyBounded(i: nat, n: nat, x: nat, y: nat, z: nat)
    requires i < 3 && n <= if i == 0 then x else if i == 1 then y else z
    ensures Bounded(Only(i, n), x, y, z)
  {
    RenderParts(if i == 0 then n else 0, if i == 1 then n else 0, if i == 2 then n else 0);
  }

  lemma PastRangeIsNoOrder(i: nat, x: nat, y: nat, z: nat)
    requires i < 3 && MAX_INT < if i == 0 then x else if i == 1 then y else z
    ensures !Orders(x, y, z)
  {
    OutOfRangeCycle(i);
    OnlyBounded(i, PAST_INT, x, y, z);
    OnlyBounded(i, 93, x, y, z);
    OnlyBounded(i, 100, x, y, z);
    var a, b, c := Only(i, PAST_INT), Only(i, 93), Only(i, 100);
    assert Orders(x, y, z) ==> VersionLess(a, c);
    assert Orders(x, y, z) ==> VersionLess(a, a);
  }

  /** VersionLess is a strict total order on the canonical versions up to given
      components exactly when all of these fit Go's int. */
  lemma OrderExactlyInRange(x: nat, y: nat, z: nat)
    ensures Orders(x, y, z) <==> x <= MAX_INT && y <= MAX_INT && z <= MAX_INT
  {
    if x <= MAX_INT && y <= MAX_INT && z <= MAX_INT {
      forall a, b, c | Bounded(a, x, y, z) && Bounded(b, x, y, z) && Bounded(c, x, y, z)
        ensures !VersionLess(a, a) && (a == b || VersionLess(a, b) || VersionLess(b, a))
        ensures VersionLess(a, b) && VersionLess(b, c) ==> VersionLess(a, c)
      {
        StrictTotalOrder(a, b, c);
      }
    } else {
      PastRangeIsNoOrder(if x > MAX_INT then 0 else if y > MAX_INT then 1 else 2, x, y, z);
    }
  }

  // ----- NextForkVersion -----

  datatype Bump = NoBump | Patch | Minor

  /** n + 1 on Go's int. */
  function Inc(n: int): int { if n == MAX_INT then MIN_INT else n + 1 }

  function Render(a: int, b: int, c: int): string { Join([Itoa(a), Itoa(b), Itoa(c)], '.') }

  predicate ReadsAsInts(parts: seq<string>) {
    |parts| == 3 && forall i :: 0 <= i < 3 ==> Atoi(parts[i]).Some? && Atoi(parts[i]).value >= 0
  }

  method ReadInts(parts: seq<string>) returns (n: Option<seq<int>>)
    ensures n.Some? <==> ReadsAsInts(parts)
    ensures n.Some? ==> n.value == [Atoi(parts[0]).value, Atoi(parts[1]).value, Atoi(parts[2]).value]
  {
    if |parts| != 3 { return None; }
    var out: seq<int> := [];
    for i := 0 to 3
      invariant |out| == i
      invariant forall k :: 0 <= k < i ==> Atoi(parts[k]) == Some(out[k]) && out[k] >= 0
    {
      var v := Atoi(parts[i]);
      if v.None? || v.value < 0 { return None; }
      out := out + [v.value];
    }
    n := Some(out);
  }

  function Bumped(parts: seq<string>, bump: Bump): string
    requires ReadsAsInts(parts) && bump != NoBump
  {
    var a, b, c := Atoi(parts[0]).value, Atoi(parts[1]).value, Atoi(parts[2]).value;
    if bump == Patch then Render(a, b, Inc(c)) else Render(a, Inc(b), 0)
  }

  method NextForkVersion(version: string, bump: Bump) returns (next: Option<string>)
    ensures next.Some? <==> bump != NoBump && ReadsAsInts(Split(version, '.'))
    ensures next.Some? ==> next.value == Bumped(Split(version, '.'), bump)
  {
    var n := ReadInts(Split(version, '.'));
    if n.None? { return None; }
    match bump {
      case Patch => next := Some(Render(n.value[0], n.value[1], Inc(n.value[2])));
      case Minor => next := Some(Render(n.value[0], Inc(n.value[1]), 0));
      case NoBump => next := None;
    }
  }

  lemma RenderParts(a: int, b: int, c: int)
    ensures Split(Render(a, b, c), '.') == [Itoa(a), Itoa(b), Itoa(c)]
    ensures a >= 0 && b >= 0 && c >= 0 ==>
              && Canonical(Render(a, b, c)) && Part(Render(a, b, c), 0) == a
              && Part(Render(a, b, c), 1) == b && Part(Render(a, b, c), 2) == c
  {
    ItoaHasNoDot(a);
    ItoaHasNoDot(b);
    ItoaHasNoDot(c);
    SplitJoin([Itoa(a), Itoa(b), Itoa(c)], '.');
    if a >= 0 && b >= 0 && c >= 0 {
      DigitsAreNumeral(a);
      DigitsAreNumeral(b);
      DigitsAreNumeral(c);
      NatOfDigits(a);
      NatOfDigits(b);
      NatOfDigits(c);
    }
  }

  /** The component a bump increments. */
  function Bumps(v: string, bump: Bump): nat
    requires Canonical(v)
  {
    if bump == Patch then Part(v, 2) else Part(v, 1)
  }

  /** The next version is a later canonical one exactly when the bumped component
      is not already the largest int; there Go's increment wraps to a negative. */
  lemma NextIncreases(v: string, bump: Bump)
    requires Canonical(v) && InRange(v) && bump != NoBump
    ensures ReadsAsInts(Split(v, '.'))
    ensures var w := Bumped(Split(v, '.'), bump);
            && (VersionLess(v, w) <==> Bumps(v, bump) < MAX_INT)
            && (Canonical(w) <==> Bumps(v, bump) < MAX_INT)
            && (Bumps(v, bump) < MAX_INT ==> InRange(w) && Precedes(v, w))
  {
    var w := BumpedParts(v, bump);
    if Bumps(v, bump) < MAX_INT {
      LaterRender(v, w.0, w.1);
    } else {
      WrappedIsNotLater(v, Render(Part(v, 0), w.0, w.1), Part(v, 0), w.0, w.1);
    }
  }

  lemma BumpedParts(v: string, bump: Bump) returns (p: (int, int))
    requires Canonical(v) && InRange(v) && bump != NoBump
    ensures p == if bump == Patch then (Part(v, 1) as int, Inc(Part(v, 2))) else (Inc(Part(v, 1)), 0)
    ensures ReadsAsInts(Split(v, '.')) && Bumped(Split(v, '.'), bump) == Render(Part(v, 0), p.0, p.1)
  {
    CanonicalReads(v);
    p := if bump == Patch then (Part(v, 1) as int, Inc(Part(v, 2))) else (Inc(Part(v, 1)), 0);
  }

  lemma LaterRender(v: string, b: int, c: int)
    requires Canonical(v) && InRange(v) && 0 <= b <= MAX_INT && 0 <= c <= MAX_INT
    requires Part(v, 1) < b || (Part(v, 1) == b && Part(v, 2) < c)
    ensures var w := Render(Part(v, 0), b, c);
            Canonical(w) && InRange(w) && Precedes(v, w) && VersionLess(v, w)
  {
    RenderParts(Part(v, 0), b, c);
    LessIsPrecedence(v, Render(Part(v, 0), b, c));
  }

  lemma RenderReads(a: int, b: int, c: int)
    requires MIN_INT <= a <= MAX_INT && MIN_INT <= b <= MAX_INT && MIN_INT <= c <= MAX_INT
    ensures Reads(Render(a, b, c), a, b, c)
  {
    RenderParts(a, b, c);
    AtoiItoa(a);
    AtoiItoa(b);
    AtoiItoa(c);
  }

  lemma WrappedIsNotLater(v: string, w: string, a: int, b: int, c: int)
    requires Canonical(v) && InRange(v) && w == Render(a, b, c) && a == Part(v, 0)
    requires (b == Part(v, 1) && c == MIN_INT) || (b == MIN_INT && c == 0)
    ensures !VersionLess(v, w) && !Canonical(w)
  {
    RenderReads(a, b, c);
    CanonicalReads(v);
    LessOfInts(v, w, Part(v, 0), Part(v, 1), Part(v, 2), a, b, c);
    NegativeIsNotCanonical(a, b, c);
  }

  lemma NegativeIsNotCanonical(a: int, b: int, c: int)
    requires b < 0 || c < 0
    ensures !Canonical(Render(a, b, c))
  {
    RenderParts(a, b, c);
    assert b < 0 ==> Itoa(b)[0] == '-';
    assert c < 0 ==> Itoa(c)[0] == '-';
  }
}
