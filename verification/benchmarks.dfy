/** mergeBenchmarks of formatter.go: repeated samples of a benchmark collapse
    into one record per name, in first-seen order, holding the truncated mean
    of each metric. */
module Benchmarks {
  import opened Runner

  datatype Metric = Allocs | Bytes | Duration

  function Get(b: Benchmark, m: Metric): int {
    match m
    case Allocs => b.allocs
    case Bytes => b.bytes
    case Duration => b.duration
  }

  /** Go's integer division, which truncates toward zero. */
  function GoDiv(a: int, n: int): int
    requires n > 0
  {
    if a >= 0 then a / n else -((-a) / n)
  }

  function Names(xs: seq<Benchmark>): (r: seq<string>)
    ensures |r| == |xs|
    ensures forall k :: 0 <= k < |xs| ==> r[k] == xs[k].name
  {
    if |xs| == 0 then [] else Names(xs[..|xs| - 1]) + [xs[|xs| - 1].name]
  }

  predicate NoDuplicates(s: seq<string>) {
    forall a, b :: 0 <= a < b < |s| ==> s[a] != s[b]
  }

  /** The distinct elements of `names`, each where it first occurs. */
  function Distinct(names: seq<string>): seq<string> {
    if |names| == 0 then []
    else
      var d := Distinct(names[..|names| - 1]);
      var x := names[|names| - 1];
      if x in d then d else d + [x]
  }

  /** The samples named `n`, in input order. */
  function Group(xs: seq<Benchmark>, n: string): seq<Benchmark> {
    if |xs| == 0 then []
    else
      var last := xs[|xs| - 1];
      Group(xs[..|xs| - 1], n) + (if last.name == n then [last] else [])
  }

  function Sum(g: seq<Benchmark>, m: Metric): int {
    if |g| == 0 then 0 else Sum(g[..|g| - 1], m) + Get(g[|g| - 1], m)
  }

  /** One record standing for all samples of a group. */
  function Mean(n: string, g: seq<Benchmark>): Benchmark
    requires |g| > 0
  {
    Benchmark(n, GoDiv(Sum(g, Allocs), |g|), GoDiv(Sum(g, Bytes), |g|), GoDiv(Sum(g, Duration), |g|))
  }

  /** The merged benchmarks, as a reference definition. */
  function Merge(xs: seq<Benchmark>): seq<Benchmark> {
    var names := Distinct(Names(xs));
    seq(|names|, k requires 0 <= k < |names| =>
      DistinctGroupNonEmpty(xs, k);
      Mean(names[k], Group(xs, names[k])))
  }

  /** Every distinct name has at least one sample. */
  lemma DistinctGroupNonEmpty(xs: seq<Benchmark>, k: nat)
    requires k < |Distinct(Names(xs))|
    ensures |Group(xs, Distinct(Names(xs))[k])| > 0
  {
    DistinctMembers(Names(xs));
    GroupNonEmpty(xs, Distinct(Names(xs))[k]);
  }

  /** The reference merge, one position at a time. */
  lemma MergeShape(xs: seq<Benchmark>)
    ensures |Merge(xs)| == |Distinct(Names(xs))|
    ensures forall k :: 0 <= k < |Merge(xs)| ==>
      |Group(xs, Distinct(Names(xs))[k])| > 0 &&
      Merge(xs)[k] == Mean(Distinct(Names(xs))[k], Group(xs, Distinct(Names(xs))[k]))
  {
  }

  lemma {:induction false} DistinctMembers(names: seq<string>)
    ensures forall x :: x in Distinct(names) <==> x in names
    decreases |names|
  {
    if |names| > 0 {
      var init := names[..|names| - 1];
      DistinctMembers(init);
      assert names == init + [names[|names| - 1]];
    }
  }

  lemma {:induction false} GroupNonEmpty(xs: seq<Benchmark>, n: string)
    ensures |Group(xs, n)| > 0 <==> n in Names(xs)
    decreases |xs|
  {
    if |xs| > 0 {
      var init := xs[..|xs| - 1];
      GroupNonEmpty(init, n);
      assert Names(xs) == Names(init) + [xs[|xs| - 1].name];
    }
  }

  // ---------------------------------------------------------------------------
  // Facts about the reference definition.

  lemma {:induction false} DistinctNoDuplicates(names: seq<string>)
    ensures NoDuplicates(Distinct(names))
    ensures |Distinct(names)| <= |names|
    decreases |names|
  {
    if |names| > 0 {
      var init := names[..|names| - 1];
      DistinctNoDuplicates(init);
    }
  }

  /** Every occurrence of a later distinct name is preceded by an occurrence
      of each earlier one: the order is that of first occurrence. */
  lemma {:induction false} DistinctFirstSeen(names: seq<string>)
    ensures forall a, b, k ::
      0 <= a < b < |Distinct(names)| && 0 <= k < |names| && names[k] == Distinct(names)[b] ==>
        Distinct(names)[a] in names[..k]
    decreases |names|
  {
    if |names| > 0 {
      var init := names[..|names| - 1];
      var x := names[|names| - 1];
      var d, d' := Distinct(names), Distinct(init);
      DistinctFirstSeen(init);
      DistinctMembers(init);
      forall a, b, k | 0 <= a < b < |d| && 0 <= k < |names| && names[k] == d[b]
        ensures d[a] in names[..k]
      {
        if k < |init| {
          assert names[..k] == init[..k];
          assert names[k] == init[k];
          if b < |d'| {
            assert d[a] == d'[a] && d[b] == d'[b];
          }
        } else {
          assert names[..k] == init;
          assert d[a] == d'[a];
          assert d'[a] in d';
        }
      }
    }
  }

  lemma {:induction false} DistinctOfDistinct(names: seq<string>)
    requires NoDuplicates(names)
    ensures Distinct(names) == names
    decreases |names|
  {
    if |names| > 0 {
      var init := names[..|names| - 1];
      DistinctOfDistinct(init);
      assert names == init + [names[|names| - 1]];
    }
  }

  /** A name carried by one sample only groups to that sample alone. */
  lemma {:induction false} GroupOfUnique(xs: seq<Benchmark>, k: nat)
    requires k < |xs|
    requires forall k' :: 0 <= k' < |xs| && k' != k ==> xs[k'].name != xs[k].name
    ensures Group(xs, xs[k].name) == [xs[k]]
    decreases |xs|
  {
    var init := xs[..|xs| - 1];
    if k == |xs| - 1 {
      GroupNonEmpty(init, xs[k].name);
    } else {
      GroupOfUnique(init, k);
    }
  }

  lemma MeanOfOne(b: Benchmark)
    ensures Mean(b.name, [b]) == b
  {
    assert [b][..0] == [];
    assert Sum([b], Allocs) == b.allocs;
    assert Sum([b], Bytes) == b.bytes;
    assert Sum([b], Duration) == b.duration;
    assert forall v :: GoDiv(v, 1) == v;
  }

  lemma MergeNamesAre(xs: seq<Benchmark>)
    ensures Names(Merge(xs)) == Distinct(Names(xs))
  {
  }

  /** One merged record per distinct input name, in first-seen order, never
      more records than samples, and nothing from nothing. */
  lemma MergeNames(xs: seq<Benchmark>)
    ensures |Merge(xs)| <= |xs|
    ensures forall n :: n in Names(Merge(xs)) <==> n in Names(xs)
    ensures NoDuplicates(Names(Merge(xs)))
    ensures forall a, b, k ::
      0 <= a < b < |Merge(xs)| && 0 <= k < |xs| && xs[k].name == Merge(xs)[b].name ==>
        Merge(xs)[a].name in Names(xs[..k])
    ensures xs == [] ==> Merge(xs) == []
  {
    var r, d := Merge(xs), Distinct(Names(xs));
    MergeNamesAre(xs);
    DistinctMembers(Names(xs));
    DistinctNoDuplicates(Names(xs));
    DistinctFirstSeen(Names(xs));
    forall a, b, k | 0 <= a < b < |r| && 0 <= k < |xs| && xs[k].name == r[b].name
      ensures r[a].name in Names(xs[..k])
    {
      assert Names(xs)[k] == d[b];
      assert Names(xs[..k]) == Names(xs)[..k];
    }
  }

  /** A benchmark sampled once comes out unchanged. */
  lemma MergeSingleSample(xs: seq<Benchmark>, k: nat, a: nat)
    requires k < |xs|
    requires forall k' :: 0 <= k' < |xs| && k' != k ==> xs[k'].name != xs[k].name
    requires a < |Merge(xs)| && Merge(xs)[a].name == xs[k].name
    ensures Merge(xs)[a] == xs[k]
  {
    GroupOfUnique(xs, k);
    MeanOfOne(xs[k]);
  }

  /** Input whose names are already distinct is its own merge. */
  lemma MergeOfDistinct(xs: seq<Benchmark>)
    requires NoDuplicates(Names(xs))
    ensures Merge(xs) == xs
  {
    DistinctOfDistinct(Names(xs));
    forall k | 0 <= k < |xs|
      ensures Merge(xs)[k] == xs[k]
    {
      MergeSingleSample(xs, k, k);
    }
  }

  /** Merging is idempotent. */
  lemma MergeIdempotent(xs: seq<Benchmark>)
    ensures Merge(Merge(xs)) == Merge(xs)
  {
    MergeNames(xs);
    MergeOfDistinct(Merge(xs));
  }

  lemma {:induction false} SumAppend(a: seq<Benchmark>, b: seq<Benchmark>, m: Metric)
    ensures Sum(a + b, m) == Sum(a, m) + Sum(b, m)
    decreases |b|
  {
    if |b| > 0 {
      var init := b[..|b| - 1];
      var last := b[|b| - 1];
      assert (a + b)[..|a + b| - 1] == a + init;
      assert (a + b)[|a + b| - 1] == last;
      SumAppend(a, init, m);
      calc {
        Sum(a + b, m);
        Sum(a + init, m) + Get(last, m);
        Sum(a, m) + Sum(init, m) + Get(last, m);
        Sum(a, m) + Sum(b, m);
      }
    } else {
      assert a + b == a;
    }
  }

  lemma SumRemove(b: seq<Benchmark>, i: nat, m: Metric)
    requires i < |b|
    ensures Sum(b, m) == Sum(b[..i] + b[i + 1..], m) + Get(b[i], m)
  {
    assert b == b[..i] + [b[i]] + b[i + 1..];
    SumAppend(b[..i] + [b[i]], b[i + 1..], m);
    SumAppend(b[..i], [b[i]], m);
    SumAppend(b[..i], b[i + 1..], m);
    assert [b[i]][..0] == [];
  }

  /** A metric's total does not depend on the order of the samples. */
  lemma {:induction false} SumPermutation(a: seq<Benchmark>, b: seq<Benchmark>, m: Metric)
    requires multiset(a) == multiset(b)
    ensures Sum(a, m) == Sum(b, m)
    decreases |a|
  {
    if |a| == 0 {
      assert |b| == |multiset(b)| == 0;
    } else {
      var x := a[|a| - 1];
      assert x in multiset(b) by {
        assert x in multiset(a);
      }
      var i :| 0 <= i < |b| && b[i] == x;
      RemoveBoth(a, b, i);
      SumPermutation(a[..|a| - 1], b[..i] + b[i + 1..], m);
      SumRemove(b, i, m);
    }
  }

  /** Taking one copy of the same sample out of two permutations of each
      other leaves permutations of each other. */
  lemma RemoveBoth(a: seq<Benchmark>, b: seq<Benchmark>, i: nat)
    requires multiset(a) == multiset(b)
    requires 0 < |a| && i < |b| && b[i] == a[|a| - 1]
    ensures multiset(a[..|a| - 1]) == multiset(b[..i] + b[i + 1..])
  {
    var x := b[i];
    assert a == a[..|a| - 1] + [x];
    assert b == b[..i] + [x] + b[i + 1..];
    assert multiset(a[..|a| - 1]) == multiset(a) - multiset{x};
    assert multiset(b[..i] + b[i + 1..]) == multiset(b) - multiset{x};
  }

  /** How many copies of each sample a group holds. */
  lemma {:induction false} GroupMultiplicity(xs: seq<Benchmark>, n: string)
    ensures forall b :: multiset(Group(xs, n))[b] == if b.name == n then multiset(xs)[b] else 0
    decreases |xs|
  {
    if |xs| > 0 {
      var init := xs[..|xs| - 1];
      GroupMultiplicity(init, n);
      assert xs == init + [xs[|xs| - 1]];
    }
  }

  lemma GroupPermutation(xs: seq<Benchmark>, ys: seq<Benchmark>, n: string)
    requires multiset(xs) == multiset(ys)
    ensures multiset(Group(xs, n)) == multiset(Group(ys, n))
  {
    GroupMultiplicity(xs, n);
    GroupMultiplicity(ys, n);
    forall b
      ensures multiset(Group(xs, n))[b] == multiset(Group(ys, n))[b]
    {
    }
  }

  /** The merged numbers do not depend on the order of the samples: two
      orderings of the same samples merge to the same names and, name for
      name, to the same record. */
  lemma MergePermutation(xs: seq<Benchmark>, ys: seq<Benchmark>)
    requires multiset(xs) == multiset(ys)
    ensures forall n :: n in Names(Merge(xs)) <==> n in Names(Merge(ys))
    ensures forall a, b ::
      (0 <= a < |Merge(xs)| && 0 <= b < |Merge(ys)| && Merge(xs)[a].name == Merge(ys)[b].name) ==>
        Merge(xs)[a] == Merge(ys)[b]
  {
    MergeNames(xs);
    MergeNames(ys);
    forall n
      ensures n in Names(xs) <==> n in Names(ys)
    {
      GroupNonEmpty(xs, n);
      GroupNonEmpty(ys, n);
      GroupPermutation(xs, ys, n);
      assert |Group(xs, n)| == |multiset(Group(xs, n))| == |multiset(Group(ys, n))| == |Group(ys, n)|;
    }
    forall a, b | 0 <= a < |Merge(xs)| && 0 <= b < |Merge(ys)| && Merge(xs)[a].name == Merge(ys)[b].name
      ensures Merge(xs)[a] == Merge(ys)[b]
    {
      MergeRecordPermutation(xs, ys, a, b);
    }
  }

  lemma MergeRecordPermutation(xs: seq<Benchmark>, ys: seq<Benchmark>, a: nat, b: nat)
    requires multiset(xs) == multiset(ys)
    requires a < |Merge(xs)| && b < |Merge(ys)| && Merge(xs)[a].name == Merge(ys)[b].name
    ensures Merge(xs)[a] == Merge(ys)[b]
  {
    MergeShape(xs);
    MergeShape(ys);
    var n := Merge(xs)[a].name;
    var gx, gy := Group(xs, n), Group(ys, n);
    GroupPermutation(xs, ys, n);
    assert |gx| == |multiset(gx)| == |multiset(gy)| == |gy|;
    SumPermutation(gx, gy, Allocs);
    SumPermutation(gx, gy, Bytes);
    SumPermutation(gx, gy, Duration);
  }

  /** Go's division leaves a remainder smaller than the divisor and with the
      sign of the dividend. */
  lemma GoDivTruncates(a: int, n: int)
    requires n > 0
    ensures a >= 0 ==> 0 <= GoDiv(a, n) * n <= a < GoDiv(a, n) * n + n
    ensures a < 0 ==> GoDiv(a, n) * n - n < a <= GoDiv(a, n) * n <= 0
  {
    if a >= 0 {
      DivBounds(a, n);
    } else {
      DivBounds(-a, n);
      assert GoDiv(a, n) * n == -(((-a) / n) * n);
    }
  }

  lemma DivBounds(u: int, n: int)
    requires u >= 0 && n > 0
    ensures 0 <= (u / n) * n <= u < (u / n) * n + n
  {
    var q, r := u / n, u % n;
    assert u == q * n + r && 0 <= r < n;
    assert 0 <= q;
    assert 0 <= q * n;
  }

  /** Each merged record holds, per metric, the total over exactly the samples
      carrying its name, divided by their number and truncated toward zero. */
  lemma MergeMeans(xs: seq<Benchmark>, k: nat, m: Metric)
    requires k < |Merge(xs)|
    ensures var r, g := Merge(xs)[k], Group(xs, Merge(xs)[k].name);
      && |g| > 0
      && (forall b :: multiset(g)[b] == if b.name == r.name then multiset(xs)[b] else 0)
      && (Sum(g, m) >= 0 ==> 0 <= Get(r, m) * |g| <= Sum(g, m) < Get(r, m) * |g| + |g|)
      && (Sum(g, m) < 0 ==> Get(r, m) * |g| - |g| < Sum(g, m) <= Get(r, m) * |g| <= 0)
  {
    var d := Distinct(Names(xs));
    DistinctMembers(Names(xs));
    GroupNonEmpty(xs, d[k]);
    GroupMultiplicity(xs, d[k]);
    GoDivTruncates(Sum(Group(xs, d[k]), m), |Group(xs, d[k])|);
  }

  lemma SumOne(b: Benchmark, m: Metric)
    ensures Sum([b], m) == Get(b, m)
  {
    assert [b][..0] == [];
  }

  lemma PairNames(b1: Benchmark, b2: Benchmark)
    requires b1.name == b2.name
    ensures Distinct(Names([b1, b2])) == [b1.name]
  {
    var n := b1.name;
    assert Names([b1, b2]) == [n, n];
    assert Distinct([n]) == [n] by {
      assert [n][..0] == [];
    }
    assert Distinct([n, n]) == [n] by {
      assert [n, n][..1] == [n];
    }
  }

  lemma PairGroup(b1: Benchmark, b2: Benchmark)
    requires b1.name == b2.name
    ensures Group([b1, b2], b1.name) == [b1, b2]
  {
    GroupSnoc([], b1);
    GroupSnoc([b1], b2);
    assert [] + [b1] == [b1];
    assert [b1] + [b2] == [b1, b2];
  }

  lemma PairSum(b1: Benchmark, b2: Benchmark, m: Metric)
    ensures Sum([b1, b2], m) == Get(b1, m) + Get(b2, m)
  {
    SumAppend([b1], [b2], m);
    assert [b1] + [b2] == [b1, b2];
    SumOne(b1, m);
    SumOne(b2, m);
  }

  /** Two samples of one benchmark merge to a single record of their means. */
  lemma MergePair(b1: Benchmark, b2: Benchmark)
    requires b1.name == b2.name
    ensures Merge([b1, b2]) == [Benchmark(b1.name, GoDiv(b1.allocs + b2.allocs, 2),
                                          GoDiv(b1.bytes + b2.bytes, 2),
                                          GoDiv(b1.duration + b2.duration, 2))]
  {
    var n, r := b1.name, Merge([b1, b2]);
    assert |r| == 1 && r[0] == Mean(n, [b1, b2]) by {
      PairNames(b1, b2);
      PairGroup(b1, b2);
      MergeShape([b1, b2]);
    }
    MeanOfPair(b1, b2);
    assert r == [r[0]];
  }

  lemma MeanOfPair(b1: Benchmark, b2: Benchmark)
    ensures Mean(b1.name, [b1, b2]) == Benchmark(b1.name, GoDiv(b1.allocs + b2.allocs, 2),
                                                 GoDiv(b1.bytes + b2.bytes, 2),
                                                 GoDiv(b1.duration + b2.duration, 2))
  {
    PairSum(b1, b2, Allocs);
    PairSum(b1, b2, Bytes);
    PairSum(b1, b2, Duration);
  }

  /** Two samples of `Bench1` merge to their mean, in either order. */
  lemma MergeExample()
    ensures Merge([Benchmark("Bench1", 10, 100, 5), Benchmark("Bench1", 20, 200, 7)])
         == [Benchmark("Bench1", 15, 150, 6)]
    ensures Merge([Benchmark("Bench1", 20, 200, 7), Benchmark("Bench1", 10, 100, 5)])
         == [Benchmark("Bench1", 15, 150, 6)]
  {
    assert GoDiv(30, 2) == 15 && GoDiv(300, 2) == 150 && GoDiv(12, 2) == 6;
    MergePair(Benchmark("Bench1", 10, 100, 5), Benchmark("Bench1", 20, 200, 7));
    MergePair(Benchmark("Bench1", 20, 200, 7), Benchmark("Bench1", 10, 100, 5));
  }

  // ---------------------------------------------------------------------------
  // The algorithm as formatter.go writes it: a map from name to samples plus
  // the list of names in first-seen order, then one pass summing each group.

  lemma NamesSnoc(xs: seq<Benchmark>, x: Benchmark)
    ensures Names(xs + [x]) == Names(xs) + [x.name]
  {
    assert (xs + [x])[..|xs|] == xs;
  }

  lemma DistinctSnoc(names: seq<string>, x: string)
    ensures Distinct(names + [x]) == if x in Distinct(names) then Distinct(names) else Distinct(names) + [x]
  {
    assert (names + [x])[..|names|] == names;
  }

  lemma GroupSnoc(xs: seq<Benchmark>, x: Benchmark)
    ensures forall n :: Group(xs + [x], n) == Group(xs, n) + (if x.name == n then [x] else [])
  {
    assert (xs + [x])[..|xs|] == xs;
  }

  /** First pass: the names in first-seen order and each name's samples. */
  method GroupByName(benchmarks: seq<Benchmark>)
    returns (order: seq<string>, benchmap: map<string, seq<Benchmark>>)
    ensures order == Distinct(Names(benchmarks))
    ensures forall n :: n in benchmap <==> n in order
    ensures forall n :: n in benchmap ==> benchmap[n] == Group(benchmarks, n)
    ensures forall n :: n in benchmap ==> |benchmap[n]| > 0
  {
    order := [];
    benchmap := map[];
    var i := 0;
    while i < |benchmarks|
      invariant 0 <= i <= |benchmarks|
      invariant order == Distinct(Names(benchmarks[..i]))
      invariant forall n :: n in benchmap <==> n in order
      invariant forall n :: n in benchmap ==> benchmap[n] == Group(benchmarks[..i], n)
      invariant forall n :: n in benchmap ==> |benchmap[n]| > 0
    {
      var bm := benchmarks[i];
      assert benchmarks[..i + 1] == benchmarks[..i] + [bm];
      NamesSnoc(benchmarks[..i], bm);
      GroupSnoc(benchmarks[..i], bm);
      DistinctSnoc(Names(benchmarks[..i]), bm.name);
      if bm.name !in benchmap {
        DistinctMembers(Names(benchmarks[..i]));
        GroupNonEmpty(benchmarks[..i], bm.name);
      }
      if bm.name !in benchmap {
        order := order + [bm.name];
      }
      var samples := if bm.name in benchmap then benchmap[bm.name] else [];
      benchmap := benchmap[bm.name := samples + [bm]];
      i := i + 1;
    }
    assert benchmarks[..i] == benchmarks;
  }

  /** Second pass, for one group: the metric totals. */
  method SumGroup(group: seq<Benchmark>) returns (allocs: int, bytes: int, duration: int)
    ensures allocs == Sum(group, Allocs)
    ensures bytes == Sum(group, Bytes)
    ensures duration == Sum(group, Duration)
  {
    allocs, bytes, duration := 0, 0, 0;
    var g := 0;
    while g < |group|
      invariant 0 <= g <= |group|
      invariant allocs == Sum(group[..g], Allocs)
      invariant bytes == Sum(group[..g], Bytes)
      invariant duration == Sum(group[..g], Duration)
    {
      assert group[..g + 1][..g] == group[..g];
      allocs := allocs + group[g].allocs;
      bytes := bytes + group[g].bytes;
      duration := duration + group[g].duration;
      g := g + 1;
    }
    assert group[..g] == group;
  }

  /** Second pass, for one group: its record with every metric averaged. */
  method AverageGroup(name: string, group: seq<Benchmark>) returns (record: Benchmark)
    requires |group| > 0
    ensures record == Mean(name, group)
  {
    var allocs, bytes, duration := SumGroup(group);
    var n := |group|;
    record := Benchmark(name, GoDiv(allocs, n), GoDiv(bytes, n), GoDiv(duration, n));
  }

  method MergeBenchmarks(benchmarks: seq<Benchmark>) returns (merged: seq<Benchmark>)
    ensures merged == Merge(benchmarks)
  {
    var order, benchmap := GroupByName(benchmarks);
    merged := [];
    var k := 0;
    while k < |order|
      invariant 0 <= k <= |order|
      invariant |merged| == k
      invariant forall t :: 0 <= t < k ==> merged[t] == Mean(order[t], Group(benchmarks, order[t]))
    {
      var name := order[k];
      assert name in benchmap;
      var record := AverageGroup(name, benchmap[name]);
      merged := merged + [record];
      k := k + 1;
    }
    assert merged == Merge(benchmarks) by {
      MergeShape(benchmarks);
    }
  }
}
