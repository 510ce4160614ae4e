/**
 The value of the system-wide `UserKeyMapping` property and the two comparisons the Caps Lock
 transaction makes on it.  The source compares sorted lists of printed entries; the lemmas here
 show that this is equality of the multisets of (source, destination) pairs.
 */
module KeyMapping {
  import opened Options

  const SOURCE_KEY := "HIDKeyboardModifierMappingSrc"
  const DESTINATION_KEY := "HIDKeyboardModifierMappingDst"
  const CAPS_LOCK: nat := 0x700000039
  const F20: nat := 0x70000006F

  type Entry = map<string, nat>
  type Mapping = seq<Entry>

  const CAPS_TO_F20: Entry := map[SOURCE_KEY := CAPS_LOCK, DESTINATION_KEY := F20]

  /** What an entry means to the keyboard: every other dictionary key is ignored. */
  datatype Remap = Remap(source: Option<nat>, destination: Option<nat>)

  function Lookup(e: Entry, key: string): Option<nat> {
    if key in e then Some(e[key]) else None
  }

  function Meaning(e: Entry): Remap {
    Remap(Lookup(e, SOURCE_KEY), Lookup(e, DESTINATION_KEY))
  }

  function Remaps(m: Mapping): (r: seq<Remap>)
    ensures |r| == |m|
    ensures forall k :: 0 <= k < |m| ==> r[k] == Meaning(m[k])
  {
    seq(|m|, k requires 0 <= k < |m| => Meaning(m[k]))
  }

  /** Same remaps with the same multiplicities, in any order. */
  predicate Same(a: Mapping, b: Mapping) {
    multiset(Remaps(a)) == multiset(Remaps(b))
  }

  /** Every remap of `a` is also one of `b`. */
  predicate Within(a: Mapping, b: Mapping) {
    forall r :: r in Remaps(a) ==> r in Remaps(b)
  }

  /** What the transaction installs. */
  function Remapped(orig: Mapping): Mapping {
    orig + [CAPS_TO_F20]
  }

  predicate IsCaps(e: Entry) {
    Lookup(e, SOURCE_KEY) == Some(CAPS_LOCK)
  }

  predicate NoCaps(m: Mapping) {
    forall e :: e in m ==> !IsCaps(e)
  }

  // ---- the printed form ----------------------------------------------------------------------

  function Digit(d: nat): char
    requires d < 16
  {
    if d < 10 then ('0' as int + d) as char else ('A' as int + d - 10) as char
  }

  function Hex(n: nat): (s: string)
    ensures |s| > 0
    ensures forall c :: c in s ==> c != '-'
  {
    if n < 16 then [Digit(n)] else Hex(n / 16) + [Digit(n % 16)]
  }

  function Usage(u: Option<nat>): (s: string)
    ensures forall c :: c in s ==> c != '-'
    ensures |s| > 0 && (s[0] == '0' <==> u.Some?)
  {
    if u.Some? then "0x" + Hex(u.value) else "missing"
  }

  function Print(r: Remap): string {
    Usage(r.source) + "->" + Usage(r.destination)
  }

  function Labels(m: Mapping): (r: seq<string>)
    ensures |r| == |m|
    ensures forall k :: 0 <= k < |m| ==> r[k] == Print(Meaning(m[k]))
  {
    seq(|m|, k requires 0 <= k < |m| => Print(Meaning(m[k])))
  }

  predicate Before(a: string, b: string) {
    if a == [] then true
    else if b == [] then false
    else a[0] < b[0] || (a[0] == b[0] && Before(a[1..], b[1..]))
  }

  function Insert(x: string, s: seq<string>): (r: seq<string>)
    ensures multiset(r) == multiset(s) + multiset{x}
  {
    if s == [] || Before(x, s[0]) then [x] + s
    else
      assert s == [s[0]] + s[1..];
      [s[0]] + Insert(x, s[1..])
  }

  function Sorted(s: seq<string>): (r: seq<string>)
    ensures multiset(r) == multiset(s)
  {
    if s == [] then []
    else
      assert s == [s[0]] + s[1..];
      Insert(s[0], Sorted(s[1..]))
  }

  function Entries(m: Mapping): seq<string> {
    Sorted(Labels(m))
  }

  predicate MappingsEqual(lhs: Option<Mapping>, rhs: Mapping) {
    lhs.Some? && |lhs.value| == |rhs| && Entries(lhs.value) == Entries(rhs)
  }

  predicate IsSubset(candidate: Option<Mapping>, expected: Mapping) {
    candidate.Some? && (set e | e in Entries(candidate.value)) <= (set e | e in Entries(expected))
  }

  // ---- sorting decides multiset equality -------------------------------------------------------

  ghost predicate Ordered(s: seq<string>) {
    forall i, j :: 0 <= i < j < |s| ==> Before(s[i], s[j])
  }

  lemma {:induction false} BeforeTotal(a: string, b: string)
    ensures Before(a, b) || Before(b, a)
    ensures Before(a, b) && Before(b, a) ==> a == b
  {
    if a != [] && b != [] && a[0] == b[0] {
      BeforeTotal(a[1..], b[1..]);
      assert a == [a[0]] + a[1..] && b == [b[0]] + b[1..];
    }
  }

  lemma {:induction false} BeforeTransitive(a: string, b: string, c: string)
    requires Before(a, b) && Before(b, c)
    ensures Before(a, c)
  {
    if a != [] && b != [] && c != [] && a[0] == b[0] == c[0] {
      BeforeTransitive(a[1..], b[1..], c[1..]);
    }
  }

  lemma {:induction false} InsertOrdered(x: string, s: seq<string>)
    requires Ordered(s)
    ensures Ordered(Insert(x, s))
  {
    if s == [] {
    } else if Before(x, s[0]) {
      forall k | 0 <= k < |s| ensures Before(x, s[k]) {
        if k > 0 { BeforeTransitive(x, s[0], s[k]); }
      }
    } else {
      BeforeTotal(x, s[0]);
      InsertOrdered(x, s[1..]);
      var t := Insert(x, s[1..]);
      forall k | 0 <= k < |t| ensures Before(s[0], t[k]) {
        assert t[k] in multiset(t);
      }
    }
  }

  lemma {:induction false} SortedOrdered(s: seq<string>)
    ensures Ordered(Sorted(s))
  {
    if s != [] {
      SortedOrdered(s[1..]);
      InsertOrdered(s[0], Sorted(s[1..]));
    }
  }

  lemma HeadFirst(s: seq<string>, x: string)
    requires Ordered(s) && x in s
    ensures Before(s[0], x)
  {
    BeforeTotal(x, x);
    var i :| 0 <= i < |s| && s[i] == x;
  }

  lemma TailMultiset(s: seq<string>)
    requires s != []
    ensures multiset(s[1..]) == multiset(s) - multiset{s[0]}
  {
    assert s == [s[0]] + s[1..];
  }

  lemma {:induction false} OrderedUnique(s: seq<string>, t: seq<string>)
    requires Ordered(s) && Ordered(t) && multiset(s) == multiset(t)
    ensures s == t
  {
    assert |s| == |multiset(s)| == |multiset(t)| == |t|;
    if s != [] {
      assert s[0] in multiset(s) && t[0] in multiset(t);
      HeadFirst(t, s[0]);
      HeadFirst(s, t[0]);
      BeforeTotal(s[0], t[0]);
      TailMultiset(s);
      TailMultiset(t);
      OrderedUnique(s[1..], t[1..]);
      assert s == [s[0]] + s[1..] && t == [t[0]] + t[1..];
    }
  }

  // ---- printing is injective -------------------------------------------------------------------

  lemma {:induction false} HexInjective(a: nat, b: nat)
    requires Hex(a) == Hex(b)
    ensures a == b
    decreases a
  {
    var s, t := Hex(a), Hex(b);
    assert s[|s| - 1] == Digit(a % 16) && t[|t| - 1] == Digit(b % 16);
    assert a >= 16 <==> |s| >= 2;
    assert b >= 16 <==> |t| >= 2;
    if a >= 16 {
      assert s[..|s| - 1] == Hex(a / 16) && t[..|t| - 1] == Hex(b / 16);
      HexInjective(a / 16, b / 16);
    }
  }

  lemma UsageInjective(a: Option<nat>, b: Option<nat>)
    requires Usage(a) == Usage(b)
    ensures a == b
  {
    if a.Some? {
      assert Usage(a)[2..] == Hex(a.value) && Usage(b)[2..] == Hex(b.value);
      HexInjective(a.value, b.value);
    }
  }

  function FirstDash(s: string): nat {
    if s == [] || s[0] == '-' then 0 else 1 + FirstDash(s[1..])
  }

  lemma {:induction false} FirstDashAfter(u: string, v: string)
    requires forall c :: c in u ==> c != '-'
    requires v != [] && v[0] == '-'
    ensures FirstDash(u + v) == |u|
  {
    if u == [] {
      assert u + v == v;
    } else {
      assert forall c :: c in u[1..] ==> c in u;
      FirstDashAfter(u[1..], v);
      assert (u + v)[1..] == u[1..] + v;
      assert u[0] in u;
    }
  }

  lemma SplitAtArrow(s: string, u: string, t: string, v: string)
    requires forall c :: c in s || c in t ==> c != '-'
    requires s + "->" + u == t + "->" + v
    ensures s == t && u == v
  {
    FirstDashAfter(s, "->" + u);
    FirstDashAfter(t, "->" + v);
    var p := s + ("->" + u);
    assert p == s + "->" + u && t + ("->" + v) == t + "->" + v;
    assert s == p[..|s|] && t == p[..|t|] && u == p[|s| + 2..] && v == p[|t| + 2..];
  }

  lemma PrintInjective(a: Remap, b: Remap)
    requires Print(a) == Print(b)
    ensures a == b
  {
    SplitAtArrow(Usage(a.source), Usage(a.destination), Usage(b.source), Usage(b.destination));
    UsageInjective(a.source, b.source);
    UsageInjective(a.destination, b.destination);
  }

  lemma {:induction false} CountAlike<A, B>(a: seq<A>, x: A, b: seq<B>, y: B)
    requires |a| == |b| && forall k :: 0 <= k < |a| ==> (a[k] == x <==> b[k] == y)
    ensures multiset(a)[x] == multiset(b)[y]
  {
    if a != [] {
      CountAlike(a[1..], x, b[1..], y);
      assert a == [a[0]] + a[1..] && b == [b[0]] + b[1..];
    }
  }

  lemma LabelCount(m: Mapping, r: Remap)
    ensures multiset(Labels(m))[Print(r)] == multiset(Remaps(m))[r]
  {
    forall k | 0 <= k < |m| ensures Labels(m)[k] == Print(r) <==> Remaps(m)[k] == r {
      if Print(Meaning(m[k])) == Print(r) { PrintInjective(Meaning(m[k]), r); }
    }
    CountAlike(Labels(m), Print(r), Remaps(m), r);
  }

  // ---- what the two comparisons decide ---------------------------------------------------------

  lemma LabelsCountAlike(a: Mapping, b: Mapping)
    ensures multiset(Labels(a)) == multiset(Labels(b)) <==> Same(a, b)
  {
    if multiset(Labels(a)) == multiset(Labels(b)) {
      forall r: Remap ensures multiset(Remaps(a))[r] == multiset(Remaps(b))[r] {
        LabelCount(a, r);
        LabelCount(b, r);
      }
    }
    if Same(a, b) {
      forall s: string ensures multiset(Labels(a))[s] == multiset(Labels(b))[s] {
        if r: Remap :| Print(r) == s {
          LabelCount(a, r);
          LabelCount(b, r);
        } else {
          assert s !in Labels(a) && s !in Labels(b);
        }
      }
    }
  }

  /** Equal sorted printed entries is equality up to order and up to keys nobody reads. */
  lemma EqualIsSame(a: Mapping, b: Mapping)
    ensures MappingsEqual(Some(a), b) <==> Same(a, b)
  {
    LabelsCountAlike(a, b);
    var s, t := Labels(a), Labels(b);
    assert |s| == |multiset(s)| && |t| == |multiset(t)|;
    assert Entries(a) == Entries(b) ==> multiset(s) == multiset(Entries(a)) == multiset(t);
    if Same(a, b) {
      SortedOrdered(s);
      SortedOrdered(t);
      OrderedUnique(Sorted(s), Sorted(t));
    }
  }

  lemma LabelIn(m: Mapping, r: Remap)
    ensures Print(r) in Entries(m) <==> r in Remaps(m)
  {
    LabelCount(m, r);
    assert Print(r) in Entries(m) <==> Print(r) in multiset(Entries(m));
    assert r in Remaps(m) <==> r in multiset(Remaps(m));
  }

  lemma EntryIsPrinted(m: Mapping, e: string) returns (r: Remap)
    requires e in Entries(m)
    ensures Print(r) == e && r in Remaps(m)
  {
    assert e in multiset(Labels(m));
    var k :| 0 <= k < |m| && Labels(m)[k] == e;
    r := Meaning(m[k]);
    assert Remaps(m)[k] == r;
  }

  /** The rollback test looks only at which remaps occur. */
  lemma SubsetIsWithin(a: Mapping, b: Mapping)
    ensures IsSubset(Some(a), b) <==> Within(a, b)
  {
    var A, B := set e | e in Entries(a), set e | e in Entries(b);
    if A <= B {
      forall r | r in Remaps(a) ensures r in Remaps(b) {
        LabelIn(a, r);
        LabelIn(b, r);
        assert Print(r) in A;
      }
    }
    if Within(a, b) {
      forall e | e in A ensures e in B {
        var r := EntryIsPrinted(a, e);
        LabelIn(b, r);
      }
    }
  }

  /** Adding the Caps Lock remap always makes a different mapping. */
  lemma AppendDiffers(m: Mapping)
    ensures !Same(m, Remapped(m))
  {
    assert |Remaps(m)| == |multiset(Remaps(m))|;
    assert |Remaps(Remapped(m))| == |multiset(Remaps(Remapped(m)))|;
  }

  /** A mapping with no Caps Lock entry differs from every mapping the transaction installs. */
  lemma NoCapsDiffers(m: Mapping, orig: Mapping)
    requires NoCaps(m)
    ensures !Same(m, Remapped(orig))
  {
    var t := Remapped(orig);
    var caps := Meaning(CAPS_TO_F20);
    assert Remaps(t)[|orig|] == caps;
    assert caps in multiset(Remaps(t));
    assert caps !in Remaps(m) by {
      forall k | 0 <= k < |m| ensures Remaps(m)[k] != caps {
        assert m[k] in m;
      }
    }
    assert caps !in multiset(Remaps(m));
  }
}
