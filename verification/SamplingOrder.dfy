/** What the scaling aggregates owe to map iteration order and sort stability (internal/slo). */
module SamplingOrder {
  import opened Slo

  ghost predicate DistinctEnds(xs: seq<Sample>) {
    forall i, j :: 0 <= i < j < |xs| ==> xs[i].end != xs[j].end
  }

  /** When completion times are pairwise distinct there is only one sorted sampling, so the aggregates depend on
      neither map iteration order nor sort stability. */
  lemma AggregatesIgnoreIterationOrder(s: Store, xs: seq<Sample>, ys: seq<Sample>)
    requires SortedSampling(s, xs) && SortedSampling(s, ys) && DistinctEnds(xs)
    ensures xs == ys && Aggregates(xs) == Aggregates(ys)
  {
    SameSamples(s, xs, ys);
    SameSamples(s, ys, xs);
    forall i, j | 0 <= i < j < |ys| ensures ys[i].end < ys[j].end {
      var a :| 0 <= a < |xs| && xs[a] == ys[i];
      var b :| 0 <= b < |xs| && xs[b] == ys[j];
      assert ys[i].id != ys[j].id;
    }
    IncreasingEnumerationUnique(xs, ys);
  }

  /** Two samples that count alike in the aggregates. */
  predicate SameMeasure(x: Sample, y: Sample) {
    x.ttftMs == y.ttftMs && x.fallback == y.fallback
  }

  /** Samples tied across the midpoint count alike. */
  ghost predicate MidpointTiesAgree(xs: seq<Sample>) {
    forall i, j :: 0 <= i < |xs| / 2 <= j < |xs| && xs[i].end == xs[j].end ==> SameMeasure(xs[i], xs[j])
  }

  /** Exactly when the aggregates of a store depend on neither map iteration order nor sort stability: when there are
      fewer than four samples, or samples tied across the midpoint count alike. */
  lemma AggregatesAreDeterminedIff(s: Store, xs: seq<Sample>)
    requires SortedSampling(s, xs)
    ensures (forall ys :: SortedSampling(s, ys) ==> Aggregates(ys) == Aggregates(xs)) <==>
            |xs| < 4 || MidpointTiesAgree(xs)
  {
    if |xs| < 4 || MidpointTiesAgree(xs) {
      forall ys | SortedSampling(s, ys) ensures Aggregates(ys) == Aggregates(xs) { AgreeingTiesDetermine(s, xs, ys); }
    } else {
      var i, j :| 0 <= i < |xs| / 2 <= j < |xs| && xs[i].end == xs[j].end && !SameMeasure(xs[i], xs[j]);
      SwappedTies(s, xs, i, j);
    }
  }

  ghost predicate NoRepeats(xs: seq<Sample>) {
    forall i, j :: 0 <= i < j < |xs| ==> xs[i] != xs[j]
  }

  lemma {:induction false} ElementCount(xs: seq<Sample>)
    requires NoRepeats(xs)
    ensures |set x | x in xs| == |xs|
  {
    if xs != [] {
      ElementCount(xs[1..]);
      var rest := set x | x in xs[1..];
      assert xs[0] !in rest;
      assert xs == [xs[0]] + xs[1..];
      assert (set x | x in xs) == rest + {xs[0]};
    }
  }

  /** Of two equally long enumerations, one that has an element of its own leaves the other one too. */
  lemma OtherHasOwn(a: seq<Sample>, b: seq<Sample>, x: Sample) returns (k: nat)
    requires NoRepeats(a) && NoRepeats(b) && |a| == |b| && x in a && x !in b
    ensures k < |b| && b[k] !in a
  {
    ElementCount(a);
    ElementCount(b);
    var as', bs := set y | y in a, set y | y in b;
    if bs <= as' - {x} { SubsetSize(bs, as' - {x}); }
    var y :| y in bs && y !in as';
    k :| 0 <= k < |b| && b[k] == y;
  }

  lemma {:induction false} SumsAppend(a: seq<Sample>, b: seq<Sample>)
    ensures TotalTtft(a + b) == TotalTtft(a) + TotalTtft(b) && Fallbacks(a + b) == Fallbacks(a) + Fallbacks(b)
    decreases |b|
  {
    if b == [] {
      assert a + b == a;
    } else {
      var front := b[..|b| - 1];
      assert (a + b)[..|a + b| - 1] == a + front;
      SumsAppend(a, front);
    }
  }

  lemma OneSample(x: Sample)
    ensures TotalTtft([x]) == x.ttftMs && Fallbacks([x]) == if x.fallback then 1 else 0
  {
    assert [x][..0] == [];
  }

  lemma SumsAround(before: seq<Sample>, x: Sample, after: seq<Sample>)
    ensures TotalTtft(before + ([x] + after)) == TotalTtft(before + after) + x.ttftMs
    ensures Fallbacks(before + ([x] + after)) == Fallbacks(before + after) + if x.fallback then 1 else 0
  {
    SumsAppend(before, [x] + after);
    SumsAppend([x], after);
    SumsAppend(before, after);
    OneSample(x);
  }

  lemma SumsWithout(xs: seq<Sample>, k: nat)
    requires k < |xs|
    ensures var rest := xs[..k] + xs[k + 1..];
            && TotalTtft(xs) == TotalTtft(rest) + xs[k].ttftMs
            && Fallbacks(xs) == Fallbacks(rest) + if xs[k].fallback then 1 else 0
  {
    SplitAround(xs, k);
    SumsAround(xs[..k], xs[k], xs[k + 1..]);
  }

  lemma SplitAround(xs: seq<Sample>, k: nat)
    requires k < |xs|
    ensures xs == xs[..k] + ([xs[k]] + xs[k + 1..])
  {}

  /** Whatever only `a` has counts like whatever only `b` has. */
  ghost predicate PrivateAlike(a: seq<Sample>, b: seq<Sample>) {
    forall x, y :: OnlyIn(x, a, b) && OnlyIn(y, b, a) ==> SameMeasure(x, y)
  }

  predicate OnlyIn(x: Sample, a: seq<Sample>, b: seq<Sample>) {
    x in a && x !in b
  }

  lemma WithoutOne(xs: seq<Sample>, k: nat)
    requires k < |xs| && NoRepeats(xs)
    ensures var rest := xs[..k] + xs[k + 1..];
            NoRepeats(rest) && forall y :: y in rest <==> y in xs && y != xs[k]
  {
    var rest := xs[..k] + xs[k + 1..];
    assert xs == xs[..k] + [xs[k]] + xs[k + 1..];
    assert forall i :: 0 <= i < |rest| ==> rest[i] == if i < k then xs[i] else xs[i + 1];
  }

  /** Two enumerations whose private elements all count alike have the same sums. */
  lemma {:induction false} SameSums(a: seq<Sample>, b: seq<Sample>)
    requires NoRepeats(a) && NoRepeats(b) && |a| == |b| && PrivateAlike(a, b)
    ensures TotalTtft(a) == TotalTtft(b) && Fallbacks(a) == Fallbacks(b)
    decreases |a|
  {
    if a == [] { return; }
    var n, x := |a| - 1, a[|a| - 1];
    var k: nat;
    if x in b { k :| k < |b| && b[k] == x; } else { k := OtherHasOwn(a, b, x); }
    assert SameMeasure(x, b[k]) by { assert x !in b ==> OnlyIn(x, a, b) && OnlyIn(b[k], b, a); }
    var front, rest := a[..n] + a[n + 1..], b[..k] + b[k + 1..];
    WithoutOne(a, n);
    WithoutOne(b, k);
    forall u, v | OnlyIn(u, front, rest) && OnlyIn(v, rest, front) ensures SameMeasure(u, v) {
      assert OnlyIn(u, a, b) && OnlyIn(v, b, a);
    }
    SumsWithout(a, n);
    SumsWithout(b, k);
    SameSums(front, rest);
  }

  lemma SamplesDiffer(s: Store, xs: seq<Sample>)
    requires Samples(s, s.Keys, xs)
    ensures NoRepeats(xs)
  {}

  lemma SameLength(s: Store, xs: seq<Sample>, ys: seq<Sample>)
    requires Samples(s, s.Keys, xs) && Samples(s, s.Keys, ys)
    ensures |xs| == |ys|
  {
    SameSamples(s, xs, ys);
    SameSamples(s, ys, xs);
    ElementCount(xs);
    ElementCount(ys);
    assert (set x | x in xs) == (set x | x in ys);
  }

  lemma AgreeingTiesDetermine(s: Store, xs: seq<Sample>, ys: seq<Sample>)
    requires SortedSampling(s, xs) && SortedSampling(s, ys) && (|xs| < 4 || MidpointTiesAgree(xs))
    ensures Aggregates(ys) == Aggregates(xs)
  {
    SameLength(s, xs, ys);
    if |xs| >= 4 {
      var mid := |xs| / 2;
      HalvesAlike(s, xs, ys, mid);
      SamplesDiffer(s, xs);
      SamplesDiffer(s, ys);
      HalvesDiffer(xs, mid);
      HalvesDiffer(ys, mid);
      SameSums(xs[..mid], ys[..mid]);
      SameSums(xs[mid..], ys[mid..]);
    }
  }

  lemma HalvesDiffer(xs: seq<Sample>, mid: nat)
    requires NoRepeats(xs) && mid <= |xs|
    ensures NoRepeats(xs[..mid]) && NoRepeats(xs[mid..])
  {}

  /** What only one sampling has in a half is tied across the midpoint with what only the other one has there. */
  lemma HalvesAlike(s: Store, xs: seq<Sample>, ys: seq<Sample>, mid: nat)
    requires SortedSampling(s, xs) && SortedSampling(s, ys) && |xs| == |ys| && mid == |xs| / 2 && MidpointTiesAgree(xs)
    ensures PrivateAlike(xs[..mid], ys[..mid]) && PrivateAlike(xs[mid..], ys[mid..])
  {
    forall x, y | OnlyIn(x, xs[..mid], ys[..mid]) && OnlyIn(y, ys[..mid], xs[..mid]) ensures SameMeasure(x, y) {
      OtherHalf(s, xs, ys, mid, x);
      OtherHalf(s, ys, xs, mid, y);
      CrossTie(xs, ys, mid, x, y);
    }
    forall x, y | OnlyIn(x, xs[mid..], ys[mid..]) && OnlyIn(y, ys[mid..], xs[mid..]) ensures SameMeasure(x, y) {
      OtherHalf(s, xs, ys, mid, x);
      OtherHalf(s, ys, xs, mid, y);
      CrossTie(xs, ys, mid, y, x);
    }
  }

  /** A sample of one sampling lies in one half of the other. */
  lemma OtherHalf(s: Store, xs: seq<Sample>, ys: seq<Sample>, mid: nat, x: Sample)
    requires Samples(s, s.Keys, xs) && Samples(s, s.Keys, ys) && mid <= |xs| == |ys|
    requires x in xs[..mid] || x in xs[mid..]
    ensures x in ys[..mid] || x in ys[mid..]
  {
    SameSamples(s, xs, ys);
    assert xs == xs[..mid] + xs[mid..] && ys == ys[..mid] + ys[mid..];
  }

  lemma CrossTie(xs: seq<Sample>, ys: seq<Sample>, mid: nat, x: Sample, y: Sample)
    requires SortedByEnd(xs) && SortedByEnd(ys) && |xs| == |ys| && mid == |xs| / 2 && MidpointTiesAgree(xs)
    requires x in xs[..mid] && x in ys[mid..] && y in xs[mid..] && y in ys[..mid]
    ensures SameMeasure(x, y)
  {
    var i :| 0 <= i < mid && xs[..mid][i] == x;
    var j :| 0 <= j < |xs| - mid && xs[mid..][j] == y;
    var k :| 0 <= k < |ys| - mid && ys[mid..][k] == x;
    var l :| 0 <= l < mid && ys[..mid][l] == y;
    assert xs[i].end <= xs[mid + j].end && ys[l].end <= ys[mid + k].end;
  }

  lemma SumsUpdated(xs: seq<Sample>, k: nat, x: Sample)
    requires k < |xs|
    ensures TotalTtft(xs[k := x]) == TotalTtft(xs) - xs[k].ttftMs + x.ttftMs
    ensures Fallbacks(xs[k := x]) == Fallbacks(xs) - (if xs[k].fallback then 1 else 0) + if x.fallback then 1 else 0
  {
    SplitAround(xs, k);
    SplitAround(xs[k := x], k);
    assert xs[k := x][..k] == xs[..k] && xs[k := x][k + 1..] == xs[k + 1..];
    SumsAround(xs[..k], xs[k], xs[k + 1..]);
    SumsAround(xs[..k], x, xs[k + 1..]);
  }

  /** Swapping two tied samples that count differently gives a sorted sampling with other aggregates. */
  lemma SwappedTies(s: Store, xs: seq<Sample>, i: nat, j: nat)
    requires SortedSampling(s, xs) && |xs| >= 4 && i < |xs| / 2 <= j < |xs|
    requires xs[i].end == xs[j].end && !SameMeasure(xs[i], xs[j])
    ensures exists ys :: SortedSampling(s, ys) && Aggregates(ys) != Aggregates(xs)
  {
    var ys := xs[i := xs[j]][j := xs[i]];
    SwappedSampling(s, xs, i, j);
    NewerTotalIsNatural(s, xs);
    NewerTotalIsNatural(s, ys);
    SwappedAggregates(xs, i, j);
  }

  lemma SwappedSums(xs: seq<Sample>, i: nat, j: nat, mid: nat)
    requires i < mid <= j < |xs|
    ensures var ys, d := xs[i := xs[j]][j := xs[i]], xs[i].ttftMs - xs[j].ttftMs;
            && TotalTtft(ys[..mid]) == TotalTtft(xs[..mid]) - d && TotalTtft(ys[mid..]) == TotalTtft(xs[mid..]) + d
            && Fallbacks(ys[mid..]) == Fallbacks(xs[mid..]) - (if xs[j].fallback then 1 else 0)
                                       + if xs[i].fallback then 1 else 0
  {
    var ys := xs[i := xs[j]][j := xs[i]];
    assert ys[..mid] == xs[..mid][i := xs[j]] && ys[mid..] == xs[mid..][j - mid := xs[i]];
    SumsUpdated(xs[..mid], i, xs[j]);
    SumsUpdated(xs[mid..], j - mid, xs[i]);
  }

  lemma SwappedAggregates(xs: seq<Sample>, i: nat, j: nat)
    requires |xs| >= 4 && i < |xs| / 2 <= j < |xs| && !SameMeasure(xs[i], xs[j])
    requires TotalTtft(xs[|xs| / 2..]) >= 0 && TotalTtft(xs[i := xs[j]][j := xs[i]][|xs| / 2..]) >= 0
    ensures Aggregates(xs[i := xs[j]][j := xs[i]]) != Aggregates(xs)
  {
    var mid, ys := |xs| / 2, xs[i := xs[j]][j := xs[i]];
    SwappedSums(xs, i, j, mid);
    if xs[i].ttftMs != xs[j].ttftMs {
      OtherRatio(xs, ys, mid, xs[i].ttftMs - xs[j].ttftMs);
    } else {
      OtherRate(xs, ys, mid);
    }
  }

  lemma OtherRatio(xs: seq<Sample>, ys: seq<Sample>, mid: nat, d: int)
    requires |xs| == |ys| >= 4 && mid == |xs| / 2 && d != 0
    requires TotalTtft(ys[..mid]) == TotalTtft(xs[..mid]) - d && TotalTtft(ys[mid..]) == TotalTtft(xs[mid..]) + d
    requires TotalTtft(xs[mid..]) >= 0 && TotalTtft(ys[mid..]) >= 0
    ensures Aggregates(ys).0 != Aggregates(xs).0
  {
    RatioMoves(TotalTtft(xs[..mid]), TotalTtft(xs[mid..]), d, mid, |xs| - mid);
  }

  lemma OtherRate(xs: seq<Sample>, ys: seq<Sample>, mid: nat)
    requires |xs| == |ys| >= 4 && mid == |xs| / 2 && Fallbacks(ys[mid..]) != Fallbacks(xs[mid..])
    ensures Aggregates(ys).1 != Aggregates(xs).1
  {
    QuotientsDiffer(Fallbacks(xs[mid..]), Fallbacks(ys[mid..]), |xs| - mid);
  }

  lemma SwappedSampling(s: Store, xs: seq<Sample>, i: nat, j: nat)
    requires SortedSampling(s, xs) && i < j < |xs| && xs[i].end == xs[j].end
    ensures SortedSampling(s, xs[i := xs[j]][j := xs[i]])
  {
    var ys := xs[i := xs[j]][j := xs[i]];
    SwapPermutes(xs, i, j);
    SamplesPermute(s, s.Keys, xs, ys);
    forall k, l | 0 <= k < l < |ys| ensures ys[k].end <= ys[l].end {
      assert ys[k].end == xs[k].end && ys[l].end == xs[l].end;
    }
  }

  lemma SwapPermutes(xs: seq<Sample>, i: nat, j: nat)
    requires i < j < |xs|
    ensures multiset(xs[i := xs[j]][j := xs[i]]) == multiset(xs)
  {
    var zs := xs[i := xs[j]];
    assert multiset(zs) == multiset(xs) - multiset{xs[i]} + multiset{xs[j]};
    assert multiset(zs[j := xs[i]]) == multiset(zs) - multiset{xs[j]} + multiset{xs[i]};
  }

  lemma NewerTotalIsNatural(s: Store, xs: seq<Sample>)
    requires Samples(s, s.Keys, xs)
    ensures TotalTtft(xs[|xs| / 2..]) >= 0
  {
    var newer := xs[|xs| / 2..];
    forall i | 0 <= i < |newer| ensures newer[i].ttftMs >= 0 { assert IsSample(s, s.Keys, xs[|xs| / 2 + i]); }
    TotalsBounds(newer);
  }

  /** Moving `d` milliseconds from the older half to the newer one changes the ratio. */
  lemma RatioMoves(older: int, newer: int, d: int, m: nat, n: nat)
    requires 0 < m && 0 < n && d != 0 && newer >= 0 && newer + d >= 0
    ensures (newer as real / n as real) / AtLeastOne(older as real / m as real)
         != ((newer + d) as real / n as real) / AtLeastOne((older - d) as real / m as real)
  {
    var a, b := newer as real / n as real, (newer + d) as real / n as real;
    var da, db := AtLeastOne(older as real / m as real), AtLeastOne((older - d) as real / m as real);
    if d > 0 {
      SmallerQuotient(newer, newer + d, n);
      SmallerQuotient(older - d, older, m);
      RatioGrows(a, b, da, db);
    } else {
      SmallerQuotient(newer + d, newer, n);
      SmallerQuotient(older, older - d, m);
      RatioGrows(b, a, db, da);
    }
  }

  lemma SmallerQuotient(a: int, b: int, n: nat)
    requires a < b && 0 < n
    ensures a as real / n as real < b as real / n as real
    ensures a >= 0 ==> a as real / n as real >= 0.0
  {
    Smaller(a as real, b as real, n as real);
  }

  lemma Smaller(a: real, b: real, d: real)
    requires a < b && 0.0 < d
    ensures a / d < b / d
  {
    assert b / d - a / d == (b - a) / d;
    assert (b - a) / d > 0.0;
  }

  lemma QuotientsDiffer(a: int, b: int, n: nat)
    requires a != b && 0 < n
    ensures a as real / n as real != b as real / n as real
  {
    if a < b { SmallerQuotient(a, b, n); } else { SmallerQuotient(b, a, n); }
  }

  lemma RatioGrows(a: real, b: real, da: real, db: real)
    requires 0.0 <= a < b && 1.0 <= db <= da
    ensures a / da < b / db
  {
    var q, r := a / da, b / db;
    assert q * da == a && r * db == b;
    assert r * da >= r * db;
    assert (r - q) * da > 0.0;
  }

  lemma SameSamples(s: Store, xs: seq<Sample>, ys: seq<Sample>)
    requires Samples(s, s.Keys, xs) && Samples(s, s.Keys, ys)
    ensures forall x :: x in xs ==> x in ys
  {
    forall x | x in xs ensures x in ys {
      var i :| 0 <= i < |xs| && xs[i] == x;
      assert IsSample(s, s.Keys, xs[i]);
    }
  }

  lemma {:induction false} IncreasingEnumerationUnique(xs: seq<Sample>, ys: seq<Sample>)
    requires forall i, j :: 0 <= i < j < |xs| ==> xs[i].end < xs[j].end
    requires forall i, j :: 0 <= i < j < |ys| ==> ys[i].end < ys[j].end
    requires (forall x :: x in xs ==> x in ys) && forall y :: y in ys ==> y in xs
    ensures xs == ys
    decreases |xs|
  {
    assert xs != [] ==> xs[0] in ys;
    assert ys != [] ==> ys[0] in xs;
    if xs != [] {
      var a, b := xs[|xs| - 1], ys[|ys| - 1];
      assert a in ys && b in xs;
      assert a == b;
      var fx, fy := xs[..|xs| - 1], ys[..|ys| - 1];
      forall x | x in fx ensures x in fy {
        assert x in xs && x.end < a.end;
        assert ys == fy + [b];
      }
      forall y | y in fy ensures y in fx {
        assert y in ys && y.end < b.end;
        assert xs == fx + [a];
      }
      IncreasingEnumerationUnique(fx, fy);
    }
  }

  /** Ties do matter: two samplings of the same store, both sorted, with different ratios. */
  lemma TiesMakeAggregatesAmbiguous()
    ensures exists s, xs, ys :: SortedSampling(s, xs) && SortedSampling(s, ys) && Aggregates(xs) != Aggregates(ys)
  {
    var fast := Timing(0, At(0), At(1_000_000), At(9_000_000), false);
    var slow := Timing(0, At(0), At(5_000_000), At(9_000_000), false);
    assert SampleOf("", fast) == Sample("", 9_000_000, 1, false);
    assert SampleOf("", slow) == Sample("", 9_000_000, 5, false);
    FourTied("a", "b", "c", "d", fast, slow);
  }

  lemma FourTied(a: string, b: string, c: string, d: string, fast: Timing, slow: Timing)
    requires a != b && a != c && a != d && b != c && b != d && c != d
    requires Completed(fast) && Completed(slow) && SampleOf("", fast).end == SampleOf("", slow).end
    requires SampleOf("", fast).ttftMs == 1 && SampleOf("", slow).ttftMs == 5
    ensures exists s, xs, ys :: SortedSampling(s, xs) && SortedSampling(s, ys) && Aggregates(xs) != Aggregates(ys)
  {
    var s: Store := map[a := fast, b := fast, c := slow, d := slow];
    var xs := TiedSampling(s, a, b, c, d);
    var ys := TiedSampling(s, c, d, a, b);
    FourRatio(xs);
    FourRatio(ys);
  }

  lemma TiedSampling(s: Store, a: string, b: string, c: string, d: string) returns (xs: seq<Sample>)
    requires a != b && a != c && a != d && b != c && b != d && c != d
    requires s.Keys == {a, b, c, d} && forall id :: id in s.Keys ==> Completed(s[id])
    requires s[a].end == s[b].end == s[c].end == s[d].end
    ensures xs == [SampleOf(a, s[a]), SampleOf(b, s[b]), SampleOf(c, s[c]), SampleOf(d, s[d])]
    ensures SortedSampling(s, xs)
  {
    xs := [SampleOf(a, s[a]), SampleOf(b, s[b]), SampleOf(c, s[c]), SampleOf(d, s[d])];
    forall id | id in s.Keys ensures SampleOf(id, s[id]) in xs {
      assert id == xs[0].id || id == xs[1].id || id == xs[2].id || id == xs[3].id;
    }
  }

  lemma FourRatio(xs: seq<Sample>)
    requires |xs| == 4 && xs[0].ttftMs + xs[1].ttftMs >= 2
    ensures Aggregates(xs).0 == (xs[2].ttftMs + xs[3].ttftMs) as real / (xs[0].ttftMs + xs[1].ttftMs) as real
  {
    FourSamples(xs);
  }

  lemma FourSamples(xs: seq<Sample>)
    requires |xs| == 4
    ensures TotalTtft(xs[..2]) == xs[0].ttftMs + xs[1].ttftMs && TotalTtft(xs[2..]) == xs[2].ttftMs + xs[3].ttftMs
  {
    Pair(xs[0], xs[1], xs[..2]);
    Pair(xs[2], xs[3], xs[2..]);
  }

  lemma Pair(a: Sample, b: Sample, xs: seq<Sample>)
    requires xs == [a, b]
    ensures TotalTtft(xs) == a.ttftMs + b.ttftMs
  {
    assert xs[..1] == [a] && [a][..0] == [];
    assert TotalTtft([a]) == a.ttftMs;
  }

  // ---- Such a store is reached ----

  /** A run of Record* calls with an increasing clock and no completion in the future, none of which evicts anything. */
  ghost predicate Orderly(p: Params, calls: seq<Call>, ss: seq<Store>) {
    IsRun(p, calls, ss) && Clocked(calls) && NotFuture(calls)
  }

  ghost predicate Ambiguous(s: Store, xs: seq<Sample>, ys: seq<Sample>) {
    SortedSampling(s, xs) && SortedSampling(s, ys) && Aggregates(xs) != Aggregates(ys)
  }

  lemma OneMoreCall(p: Params, calls: seq<Call>, ss: seq<Store>, c: Call) returns (calls': seq<Call>, ss': seq<Store>)
    requires Orderly(p, calls, ss) && c.inserted <= c.started <= c.evicted
    requires calls != [] ==> calls[|calls| - 1].evicted < c.inserted
    requires c.op.Completion? && c.op.ts.At? ==> c.op.ts.ns <= c.evicted
    requires var s := Touch(ss[|calls|], c); |s| <= p.maxRecords && NoneExpired(p, s, c.evicted)
    ensures Orderly(p, calls', ss') && |calls'| == |calls| + 1
    ensures calls'[|calls|] == c && ss'[|calls'|] == Touch(ss[|calls|], c)
  {
    var s := Touch(ss[|calls|], c);
    calls', ss' := calls + [c], ss + [s];
    assert Live(p, s, c.evicted) == s.Keys;
    forall k | 0 <= k < |calls'| ensures StepAt(p, calls', ss', k) {
      if k < |calls| { assert StepAt(p, calls, ss, k); }
    }
  }

  /** The aggregates of a store that eight calls lead to are ambiguous: two slow and two fast requests complete at the
      same instant. */
  lemma AmbiguityIsReachable()
    ensures exists p, calls, ss, xs, ys :: Orderly(p, calls, ss) && |calls| == 8 && Ambiguous(ss[8], xs, ys)
  {
    var p := Params(10, 1_000_000_000);
    var calls, ss := FourStarts(p);
    assert FourStarted().Keys == {"a", "b", "c", "d"};
    calls, ss := FourCompletions(p, calls, ss, At(9_000_000));
    var xs, ys := TiedHalves(ss[8]);
    assert Ambiguous(ss[8], xs, ys);
  }

  function StartedAt(at: int): Timing {
    Timing(at, At(at), Zero, Zero, false)
  }

  function FourStarted(): Store {
    map["c" := StartedAt(0)]["d" := StartedAt(1)]["a" := StartedAt(8_000_000)]["b" := StartedAt(8_000_001)]
  }

  lemma FourStarts(p: Params) returns (calls: seq<Call>, ss: seq<Store>)
    requires p == Params(10, 1_000_000_000)
    ensures Orderly(p, calls, ss) && |calls| == 4 && calls[3].evicted < 9_000_000 && ss[4] == FourStarted()
  {
    calls, ss := [], [map[]];
    calls, ss := OneMoreStart(p, calls, ss, "c", 0);
    calls, ss := OneMoreStart(p, calls, ss, "d", 1);
    calls, ss := OneMoreStart(p, calls, ss, "a", 8_000_000);
    calls, ss := OneMoreStart(p, calls, ss, "b", 8_000_001);
  }

  /** All requests of the store have started, by `latest`, and got nothing yet. */
  ghost predicate Started(s: Store, latest: int) {
    forall id :: id in s ==>
                   && s[id].start.At? && s[id].firstToken == Zero && s[id].end == Zero
                   && 0 <= s[id].insertedAt <= latest
  }

  lemma OneMoreStart(p: Params, calls: seq<Call>, ss: seq<Store>, id: string, at: int)
    returns (calls': seq<Call>, ss': seq<Store>)
    requires Orderly(p, calls, ss) && p == Params(10, 1_000_000_000) && 0 <= at <= 9_000_000
    requires calls != [] ==> calls[|calls| - 1].evicted < at
    requires id !in ss[|calls|] && |ss[|calls|]| <= 3 && Started(ss[|calls|], at)
    ensures Orderly(p, calls', ss') && |calls'| == |calls| + 1 && calls'[|calls|].evicted == at
    ensures ss'[|calls'|] == ss[|calls|][id := Timing(at, At(at), Zero, Zero, false)]
    ensures |ss'[|calls'|]| == |ss[|calls|]| + 1 && Started(ss'[|calls'|], at)
  {
    var s, c := ss[|calls|], Call(id, Start, at, at, at);
    assert Touch(s, c) == s[id := Timing(at, At(at), Zero, Zero, false)];
    calls', ss' := OneMoreCall(p, calls, ss, c);
  }

  /** Four requests in flight complete at the same instant. */
  lemma FourCompletions(p: Params, calls0: seq<Call>, ss0: seq<Store>, done: Timestamp)
    returns (calls: seq<Call>, ss: seq<Store>)
    requires Orderly(p, calls0, ss0) && |calls0| == 4 && calls0[3].evicted < 9_000_000
    requires p == Params(10, 1_000_000_000) && done == At(9_000_000)
    requires ss0[4].Keys == {"a", "b", "c", "d"}
    requires forall id :: id in ss0[4] ==> ss0[4][id].end == Zero && 0 <= ss0[4][id].insertedAt <= 9_000_000
    ensures Orderly(p, calls, ss) && |calls| == 8 && ss[8].Keys == ss0[4].Keys
    ensures forall id :: id in ss[8] ==> ss[8][id] == ss0[4][id].(end := done)
  {
    var s := ss0[4];
    calls, ss := OneMoreCompletion(p, calls0, ss0, "a", done, 9_000_000);
    calls, ss := OneMoreCompletion(p, calls, ss, "b", done, 9_000_001);
    calls, ss := OneMoreCompletion(p, calls, ss, "c", done, 9_000_002);
    calls, ss := OneMoreCompletion(p, calls, ss, "d", done, 9_000_003);
  }

  lemma OneMoreCompletion(p: Params, calls: seq<Call>, ss: seq<Store>, id: string, done: Timestamp, at: int)
    returns (calls': seq<Call>, ss': seq<Store>)
    requires Orderly(p, calls, ss) && calls != [] && calls[|calls| - 1].evicted < at
    requires p == Params(10, 1_000_000_000) && done == At(9_000_000) && 9_000_000 <= at <= 9_000_003
    requires ss[|calls|].Keys == {"a", "b", "c", "d"} && id in ss[|calls|]
    requires forall x :: x in ss[|calls|] ==>
                           0 <= ss[|calls|][x].insertedAt <= 9_000_000 && ss[|calls|][x].end in {Zero, done}
    ensures Orderly(p, calls', ss') && |calls'| == |calls| + 1 && calls'[|calls|].evicted == at
    ensures ss'[|calls'|] == ss[|calls|][id := ss[|calls|][id].(end := done)]
  {
    var c, s := Call(id, Completion(done), at, at, at), ss[|calls|];
    assert Touch(s, c) == s[id := s[id].(end := done)];
    assert |{"a", "b", "c", "d"}| <= 4;
    assert Touch(s, c).Keys == s.Keys;
    calls', ss' := OneMoreCall(p, calls, ss, c);
  }

  lemma TiedHalves(s: Store) returns (xs: seq<Sample>, ys: seq<Sample>)
    requires s.Keys == {"a", "b", "c", "d"}
    requires forall id :: id in s ==> s[id].start.At? && s[id].firstToken == Zero && s[id].end == At(9_000_000)
    requires s["a"].start.ns == 8_000_000 && s["c"].start.ns == 0
    ensures Ambiguous(s, xs, ys)
  {
    xs := TiedSampling(s, "a", "b", "c", "d");
    assert xs[0].ttftMs == 1 && xs[2].ttftMs == 9;
    AggregatesAreDeterminedIff(s, xs);
    assert !SameMeasure(xs[0], xs[2]);
    ys :| SortedSampling(s, ys) && Aggregates(ys) != Aggregates(xs);
  }
}
