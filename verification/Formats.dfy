/** Order-insensitive slice comparisons and set building (internal/helpers/formats.go). */
module Formats {
  import opened Wrappers

  function Count(counts: map<string, int>, s: string): int {
    if s in counts then counts[s] else 0
  }

  /** The counts are those of `up`, less those of `down`. */
  ghost predicate Tallies(counts: map<string, int>, up: multiset<string>, down: multiset<string>) {
    forall s :: Count(counts, s) + down[s] == up[s]
  }

  lemma TallyUp(counts: map<string, int>, up: multiset<string>, down: multiset<string>, s: string)
    requires Tallies(counts, up, down)
    ensures Tallies(counts[s := Count(counts, s) + 1], up + multiset{s}, down)
  {
  }

  lemma TallyDown(counts: map<string, int>, up: multiset<string>, down: multiset<string>, s: string)
    requires Tallies(counts, up, down)
    ensures Tallies(counts[s := Count(counts, s) - 1], up, down + multiset{s})
    ensures Count(counts, s) - 1 < 0 <==> (down + multiset{s})[s] > up[s]
  {
  }

  lemma TakeOneMore(s: seq<string>, i: nat)
    requires i < |s|
    ensures multiset(s[..i + 1]) == multiset(s[..i]) + multiset{s[i]}
    ensures multiset(s[..i + 1]) <= multiset(s)
  {
    assert s[..i + 1] == s[..i] + [s[i]];
    assert s == s[..i + 1] + s[i + 1..];
  }

  /** With equal sizes the one-sided test is enough. */
  lemma SubsetOfSameSize(a: multiset<string>, b: multiset<string>)
    requires b <= a && |a| == |b|
    ensures a == b
  {
    assert a == b + (a - b);
    assert |a - b| == 0;
  }

  /** internal/helpers/formats.go: AreStringSlicesEqual. */
  method AreStringSlicesEqual(sliceA: seq<string>, sliceB: seq<string>) returns (equal: bool)
    ensures equal <==> multiset(sliceA) == multiset(sliceB)
  {
    if |sliceA| != |sliceB| {
      assert |multiset(sliceA)| == |sliceA| && |multiset(sliceB)| == |sliceB|;
      return false;
    }
    hide Tallies;
    var counts := CountUp(sliceA);
    for i := 0 to |sliceB|
      invariant Tallies(counts, multiset(sliceA), multiset(sliceB[..i]))
      invariant multiset(sliceB[..i]) <= multiset(sliceA)
    {
      TakeOneMore(sliceB, i);
      TallyDown(counts, multiset(sliceA), multiset(sliceB[..i]), sliceB[i]);
      counts := counts[sliceB[i] := Count(counts, sliceB[i]) - 1];
      if counts[sliceB[i]] < 0 {
        return false;
      }
    }
    assert sliceB[..|sliceB|] == sliceB;
    SubsetOfSameSize(multiset(sliceA), multiset(sliceB));
    return true;
  }

  /** Its first loop, which counts the occurrences of each string. */
  method CountUp(slice: seq<string>) returns (counts: map<string, int>)
    ensures Tallies(counts, multiset(slice), multiset{})
  {
    counts := map[];
    for i := 0 to |slice|
      invariant Tallies(counts, multiset(slice[..i]), multiset{})
    {
      TakeOneMore(slice, i);
      TallyUp(counts, multiset(slice[..i]), multiset{}, slice[i]);
      counts := counts[slice[i] := Count(counts, slice[i]) + 1];
    }
    assert slice[..|slice|] == slice;
  }

  /** The elements of a slice, duplicates and order forgotten. */
  ghost function Elements(slice: seq<string>): set<string> {
    set s | s in slice
  }

  lemma SameElements(a: seq<string>, b: seq<string>)
    ensures Elements(a) == Elements(b) <==> forall s :: s in a <==> s in b
  {
    assert forall s :: s in Elements(a) <==> s in a;
    assert forall s :: s in Elements(b) <==> s in b;
  }

  /** internal/helpers/formats.go: NewStringSetFromSlice. */
  method NewStringSetFromSlice(slice: seq<string>) returns (unique: set<string>)
    ensures unique == Elements(slice)
    ensures forall s :: s in unique <==> s in slice
  {
    unique := {};
    for i := 0 to |slice|
      invariant unique == Elements(slice[..i])
    {
      assert slice[..i + 1] == slice[..i] + [slice[i]];
      unique := unique + {slice[i]};
    }
    assert slice[..|slice|] == slice;
  }

  lemma IncludedWithSameSize(a: set<string>, b: set<string>)
    requires a <= b && |a| == |b|
    ensures a == b
  {
    assert b == a + (b - a);
    assert |b - a| == 0;
  }

  /** internal/helpers/formats.go: AreStringSlicesEqualDeDuped. */
  method AreStringSlicesEqualDeDuped(sliceA: seq<string>, sliceB: seq<string>) returns (equal: bool)
    ensures equal <==> Elements(sliceA) == Elements(sliceB)
    ensures equal <==> forall s :: s in sliceA <==> s in sliceB
  {
    SameElements(sliceA, sliceB);
    if |sliceA| == 0 && |sliceB| == 0 {
      return true;
    }
    var setA := NewStringSetFromSlice(sliceA);
    var setB := NewStringSetFromSlice(sliceB);
    if |setA| != |setB| {
      return false;
    }
    var left := setA;
    while left != {}
      invariant left <= setA && setA - left <= setB
      decreases left
    {
      var s :| s in left;
      if s !in setB {
        return false;
      }
      left := left - {s};
    }
    IncludedWithSameSize(setA, setB);
    return true;
  }

  /** Equality up to order implies equality up to order and duplicates; the converse fails on `[x, x]` and `[x]`. */
  lemma MultisetEqualImpliesElementsEqual(a: seq<string>, b: seq<string>)
    requires multiset(a) == multiset(b)
    ensures Elements(a) == Elements(b)
  {
    forall s
      ensures s in a <==> s in b
    {
      assert s in a <==> s in multiset(a);
      assert s in b <==> s in multiset(b);
    }
  }

  lemma ElementsEqualIsWeaker(x: string)
    ensures Elements([x, x]) == Elements([x]) && multiset([x, x]) != multiset([x])
  {
    assert multiset([x, x])[x] == 2 && multiset([x])[x] == 1;
  }

  /** `strconv.FormatBool`. */
  function FormatBool(b: bool): string {
    if b then "true" else "false"
  }

  /** internal/helpers/formats.go: IsStringifiedBoolEqual; an unset desired value matches anything. */
  predicate IsStringifiedBoolEqual(desired: Option<bool>, observed: Option<string>) {
    var boolean := desired.Some? && desired.value;
    desired.None? || (if observed.Some? then observed.value else "") == FormatBool(boolean)
  }

  /** What is compared is the text "true" or "false"; a missing observed value is neither. */
  lemma StringifiedBoolMeans(desired: Option<bool>, observed: Option<string>)
    ensures IsStringifiedBoolEqual(desired, observed) <==>
            && (desired == Some(true) ==> observed == Some("true"))
            && (desired == Some(false) ==> observed == Some("false"))
  {
    assert "" != "true" && "" != "false";
  }

  /** internal/helpers/formats.go: IsComparablePtrEqualComparablePtr at type string. */
  predicate IsComparablePtrEqualComparablePtr(a: Option<string>, b: Option<string>) {
    if a.None? && b.None? then true
    else if a.None? || b.None? then false
    else a.value == b.value
  }
}
