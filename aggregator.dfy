/** Aggregators (benchmark_keeper/aggregator.py): strategies that reduce the benchmark maps
    of several runs to one score per run, and the registry of named presets. */
module Aggregation {
  import opened Outcomes
  import opened Model
  import opened Sorting
  import opened Text

  /** The aggregators: one applying a per-run function, the ranking aggregator, and any
      other aggregator registered at run time with its own unit and direction. */
  datatype Aggregator =
    | Independent(aggFunc: Benchmarks -> Raising<real>)
    | Ranking
    | Custom(aggregateFn: seq<Benchmarks> -> Raising<seq<real>>, unitLabel: string, lowerBetter: bool)

  /** `unit()`: "unit" unless the aggregator overrides it. */
  function Unit(agg: Aggregator): (unit: string)
    ensures agg.Independent? ==> unit == "unit"
    ensures agg.Ranking? ==> unit == "mean rank"
  {
    match agg
    case Independent(_) => "unit"
    case Ranking => "mean rank"
    case Custom(_, unitLabel, _) => unitLabel
  }

  /** `lower_is_better()`: True unless the aggregator overrides it. */
  function LowerIsBetter(agg: Aggregator): (lower: bool)
    ensures !agg.Custom? ==> lower
  {
    match agg
    case Custom(_, _, lowerBetter) => lowerBetter
    case _ => true
  }

  // ---------------------------------------------------------------------------------------
  // IndependentAggregator and the "mean" preset

  /** `list(map(agg_func, results))`: the first exception raised by `agg_func` escapes. */
  function IndependentAggregate(f: Benchmarks -> Raising<real>, results: seq<Benchmarks>): (r: Raising<seq<real>>)
    ensures r.Returns? <==> forall i :: 0 <= i < |results| ==> f(results[i]).Returns?
    ensures r.Returns? ==> |r.value| == |results|
                           && forall i :: 0 <= i < |results| ==> r.value[i] == f(results[i]).value
    ensures r.Raises? ==> exists i :: 0 <= i < |results| && f(results[i]) == Raises(r.error)
                                      && forall j :: 0 <= j < i ==> f(results[j]).Returns?
  {
    if results == [] then Returns([])
    else
      match f(results[0])
      case Raises(e) => Raises(e)
      case Returns(x) =>
        var rest := IndependentAggregate(f, results[1..]);
        assert forall i :: 0 < i < |results| ==> results[i] == results[1..][i - 1];
        match rest
        case Raises(e) =>
          var i :| 0 <= i < |results[1..]| && f(results[1..][i]) == Raises(e)
                   && forall j :: 0 <= j < i ==> f(results[1..][j]).Returns?;
          assert f(results[i + 1]) == Raises(e);
          Raises(e)
        case Returns(xs) => Returns([x] + xs)
  }

  /** No target is negative (measured times never are). */
  predicate NoNegativeTarget(m: Benchmarks) {
    forall k :: k in m ==> m[k].target >= 0.0
  }

  /** The sum of the targets of a benchmark map (added in key order; see SumTargetsAnyOrder). */
  function SumTargets(m: Benchmarks): (sum: real)
    ensures NoNegativeTarget(m) ==> sum >= 0.0
    decreases |m|
  {
    if |m| == 0 then 0.0
    else
      var k := Least(m.Keys);
      assert NoNegativeTarget(m) ==> NoNegativeTarget(m - {k});
      m[k].target + SumTargets(m - {k})
  }

  /** The sum does not depend on the order in which the targets are added: any benchmark
      can be taken out first. */
  lemma {:induction false} SumTargetsAnyOrder(m: Benchmarks, k: string)
    requires k in m
    ensures SumTargets(m) == m[k].target + SumTargets(m - {k})
    decreases |m|
  {
    var l := Least(m.Keys);
    if k != l {
      var withoutL, withoutK := m - {l}, m - {k};
      assert k in withoutL && withoutL[k] == m[k];
      assert l in withoutK && withoutK[l] == m[l];
      assert withoutL - {k} == withoutK - {l};
      SumTargetsAnyOrder(withoutL, k);
      SumTargetsAnyOrder(withoutK, l);
    }
  }

  /** `x` added to itself `k` times. */
  function Scaled(k: nat, x: real): real {
    if k == 0 then 0.0 else Scaled(k - 1, x) + x
  }

  lemma {:induction false} ScaledIsProduct(k: nat, x: real)
    ensures Scaled(k, x) == (k as real) * x
  {
    if k > 0 {
      ScaledIsProduct(k - 1, x);
      assert (k as real) * x == ((k - 1) as real) * x + x;
    }
  }

  lemma {:induction false} ScaledZero(k: nat)
    ensures Scaled(k, 0.0) == 0.0
  {
    if k > 0 { ScaledZero(k - 1); }
  }

  /** A total between `n` times `lo` and `n` times `hi`, divided by `n`, lies between `lo` and `hi`. */
  lemma DivideBetween(s: real, n: nat, lo: real, hi: real)
    requires n > 0 && Scaled(n, lo) <= s <= Scaled(n, hi)
    ensures lo <= s / (n as real) <= hi
  {
    ScaledIsProduct(n, lo);
    ScaledIsProduct(n, hi);
    DivideBelow(lo, s, n as real);
    DivideAbove(s, hi, n as real);
  }

  lemma DivideBelow(a: real, b: real, r: real)
    requires r > 0.0 && r * a <= b
    ensures a <= b / r
  {
    assert b == r * (b / r);
  }

  lemma DivideAbove(b: real, a: real, r: real)
    requires r > 0.0 && b <= r * a
    ensures b / r <= a
  {
    assert b == r * (b / r);
  }

  /** The sum lies between |m| times the least and |m| times the greatest target. */
  lemma {:induction false} SumTargetsBounds(m: Benchmarks, lo: real, hi: real)
    requires forall k :: k in m ==> lo <= m[k].target <= hi
    ensures Scaled(|m|, lo) <= SumTargets(m) <= Scaled(|m|, hi)
    decreases |m|
  {
    if |m| > 0 {
      var k := Least(m.Keys);
      var rest := m - {k};
      SumTargetsBounds(rest, lo, hi);
      assert |rest| == |m| - 1;
    }
  }

  /** The "mean" preset's function: the average target of one run's benchmarks. On an
      empty map `sum(...) / len(x)` divides by zero. */
  function Mean(m: Benchmarks): (r: Raising<real>)
    ensures r.Raises? <==> |m| == 0
    ensures r.Raises? ==> r.error == ZeroDivisionError
    ensures r.Returns? ==> r.value * (|m| as real) == SumTargets(m)
  {
    if |m| == 0 then Raises(ZeroDivisionError)
    else Returns(SumTargets(m) / (|m| as real))
  }

  /** The mean lies between the least and the greatest target. */
  lemma MeanBetween(m: Benchmarks, lo: real, hi: real)
    requires |m| > 0 && forall k :: k in m ==> lo <= m[k].target <= hi
    ensures lo <= Mean(m).value <= hi
  {
    SumTargetsBounds(m, lo, hi);
    DivideBetween(SumTargets(m), |m|, lo, hi);
  }

  /** A run with benchmarks a: 5 and b: 10 has mean 7.5. */
  lemma MeanExample()
    ensures Mean(map["a" := NewResult(5.0), "b" := NewResult(10.0)]) == Returns(7.5)
  {
    var m := map["a" := NewResult(5.0), "b" := NewResult(10.0)];
    SumExample();
    assert m.Keys == {"a", "b"};
    assert |m| == 2;
  }

  lemma SumExample()
    ensures SumTargets(map["a" := NewResult(5.0), "b" := NewResult(10.0)]) == 15.0
  {
    var m := map["a" := NewResult(5.0), "b" := NewResult(10.0)];
    SumTargetsAnyOrder(m, "a");
    var rest := m - {"a"};
    assert rest == map["b" := NewResult(10.0)];
    SumTargetsAnyOrder(rest, "b");
    assert rest - {"b"} == map[];
    assert SumTargets(map[]) == 0.0;
  }

  // ---------------------------------------------------------------------------------------
  // RankingAggregator

  /** Every run has a result for `bench`. */
  predicate InEveryRun(results: seq<Benchmarks>, bench: string) {
    forall i :: 0 <= i < |results| ==> bench in results[i]
  }

  predicate AllInEveryRun(results: seq<Benchmarks>, benches: set<string>) {
    forall b :: b in benches ==> InEveryRun(results, b)
  }

  /** `reduce(lambda x, y: x.intersection(y), [set(res.keys()) for res in results])`. */
  function CommonBenchmarks(results: seq<Benchmarks>): (c: set<string>)
    requires |results| > 0
    ensures forall b :: b in c <==> InEveryRun(results, b)
  {
    if |results| == 1 then results[0].Keys
    else CommonBenchmarks(results[..|results| - 1]) * results[|results| - 1].Keys
  }

  /** The targets of one benchmark across the runs. */
  function Targets(results: seq<Benchmarks>, bench: string): (t: seq<real>)
    requires InEveryRun(results, bench)
    ensures |t| == |results| && forall i :: 0 <= i < |results| ==> t[i] == results[i][bench].target
  {
    seq(|results|, i requires 0 <= i < |results| => results[i][bench].target)
  }

  /** The rank run `i` receives on `bench`: its position in `sorted(range(n), key=target)`. */
  function BenchRank(results: seq<Benchmarks>, bench: string, i: nat): (rank: nat)
    requires i < |results| && InEveryRun(results, bench)
    ensures rank < |results|
  {
    IndexOf(StableOrder(Targets(results, bench)), i)
  }

  /** The ranks of one benchmark are a permutation of 0..n-1: no two runs share a rank and
      every rank is given to some run. */
  lemma RanksArePermutation(results: seq<Benchmarks>, bench: string)
    requires InEveryRun(results, bench)
    ensures forall i, j :: 0 <= i < j < |results| ==> BenchRank(results, bench, i) != BenchRank(results, bench, j)
    ensures forall p :: 0 <= p < |results| ==>
              StableOrder(Targets(results, bench))[p] < |results|
              && BenchRank(results, bench, StableOrder(Targets(results, bench))[p]) == p
  {
    var keys := Targets(results, bench);
    var order := StableOrder(keys);
    forall p | 0 <= p < |results|
      ensures order[p] < |results| && BenchRank(results, bench, order[p]) == p
    {
      var q := IndexOf(order, order[p]);
      if q != p { StableOrderInjective(keys, order, p, q); }
    }
  }

  /** Ranks follow the targets: a strictly smaller target gets a strictly smaller rank, and
      equal targets are ranked in run order. */
  lemma RankFollowsTarget(results: seq<Benchmarks>, bench: string, i: nat, j: nat)
    requires i < |results| && j < |results| && InEveryRun(results, bench)
    requires results[i][bench].target < results[j][bench].target
             || (results[i][bench].target == results[j][bench].target && i < j)
    ensures BenchRank(results, bench, i) < BenchRank(results, bench, j)
  {
    var keys := Targets(results, bench);
    var order := StableOrder(keys);
    var p, q := IndexOf(order, i), IndexOf(order, j);
    assert order[p] == i && order[q] == j && keys[i] == results[i][bench].target && keys[j] == results[j][bench].target;
    assert p != q;
    StableOrderBefore(keys, q, p);
  }

  /** The total rank of run `i` over a set of common benchmarks (added in name order; see
      RankTotalAnyOrder). */
  function RankTotal(results: seq<Benchmarks>, benches: set<string>, i: nat): nat
    requires i < |results|
    requires AllInEveryRun(results, benches)
    decreases benches
  {
    if benches == {} then 0
    else
      var b := Least(benches);
      BenchRank(results, b, i) + RankTotal(results, benches - {b}, i)
  }

  lemma {:induction false} RankTotalAnyOrder(results: seq<Benchmarks>, benches: set<string>, b: string, i: nat)
    requires i < |results| && b in benches
    requires AllInEveryRun(results, benches)
    ensures RankTotal(results, benches, i) == BenchRank(results, b, i) + RankTotal(results, benches - {b}, i)
    decreases benches
  {
    var l := Least(benches);
    if l != b {
      RankTotalAnyOrder(results, benches - {l}, b, i);
      RankTotalAnyOrder(results, benches - {b}, l, i);
      assert benches - {l} - {b} == benches - {b} - {l};
    }
  }

  /** The score of run `i`: its mean rank over the benchmarks every run has. */
  function MeanRank(results: seq<Benchmarks>, i: nat): (rank: real)
    requires i < |results| && CommonBenchmarks(results) != {}
    ensures 0.0 <= rank <= (|results| - 1) as real
  {
    RankTotalBounds(results, CommonBenchmarks(results), i);
    ScaledZero(|CommonBenchmarks(results)|);
    DivideBetween(RankTotal(results, CommonBenchmarks(results), i) as real, |CommonBenchmarks(results)|,
                  0.0, (|results| - 1) as real);
    (RankTotal(results, CommonBenchmarks(results), i) as real) / (|CommonBenchmarks(results)| as real)
  }

  /** What `RankingAggregator.aggregate` returns. */
  function RankingScores(results: seq<Benchmarks>): (r: Raising<seq<real>>)
    ensures r.Raises? <==> |results| == 0
    ensures r.Raises? ==> r.error == TypeError
    ensures r.Returns? ==> |r.value| == |results|
                           && forall i :: 0 <= i < |results| ==> 0.0 <= r.value[i] <= (|results| - 1) as real
  {
    if |results| == 0 then Raises(TypeError)
    else if CommonBenchmarks(results) == {} then Returns(seq(|results|, _ => 0.0))
    else Returns(seq(|results|, i requires 0 <= i < |results| => MeanRank(results, i)))
  }

  function Sum(s: seq<real>): real {
    if s == [] then 0.0 else Sum(s[..|s| - 1]) + s[|s| - 1]
  }

  /** 0 + 1 + ... + (k - 1). */
  function Triangle(k: nat): nat {
    if k == 0 then 0 else Triangle(k - 1) + (k - 1)
  }

  lemma {:induction false} SumZeros(n: nat)
    ensures Sum(seq(n, _ => 0.0)) == 0.0
  {
    if n > 0 {
      assert seq(n, _ => 0.0)[..n - 1] == seq(n - 1, _ => 0.0);
      SumZeros(n - 1);
    }
  }

  lemma {:induction false} SumUpdate(s: seq<real>, k: nat, d: real)
    requires k < |s|
    ensures Sum(s[k := s[k] + d]) == Sum(s) + d
  {
    var t := s[k := s[k] + d];
    if k < |s| - 1 {
      SumUpdate(s[..|s| - 1], k, d);
      assert t[..|t| - 1] == s[..|s| - 1][k := s[k] + d];
    } else {
      assert t[..|t| - 1] == s[..|s| - 1];
    }
  }

  lemma {:induction false} SumDivided(s: seq<real>, t: seq<real>, m: real)
    requires m != 0.0 && |s| == |t| && forall k :: 0 <= k < |s| ==> t[k] == s[k] / m
    ensures Sum(t) == Sum(s) / m
  {
    if s != [] {
      SumDivided(s[..|s| - 1], t[..|t| - 1], m);
    }
  }

  /** The inner loop of the ranking aggregator: the run at position `rank` of `order` gets
      `rank` added to its score. */
  method AddRanks(score: array<real>, order: seq<nat>)
    requires |order| == score.Length
    requires forall q :: 0 <= q < |order| ==> order[q] < score.Length
    requires forall p, q :: 0 <= p < q < |order| ==> order[p] != order[q]
    modifies score
    ensures forall q :: 0 <= q < |order| ==> score[order[q]] == old(score[order[q]]) + q as real
    ensures Sum(score[..]) == Sum(old(score[..])) + Triangle(|order|) as real
  {
    for rank := 0 to |order|
      invariant forall q :: 0 <= q < rank ==> score[order[q]] == old(score[order[q]]) + q as real
      invariant forall q :: rank <= q < |order| ==> score[order[q]] == old(score[order[q]])
      invariant Sum(score[..]) == Sum(old(score[..])) + Triangle(rank) as real
    {
      SumUpdate(score[..], order[rank], rank as real);
      score[order[rank]] := score[order[rank]] + rank as real;
    }
  }

  /** One pass of the outer loop of the ranking aggregator, for `bench`. */
  method AddBenchRanks(results: seq<Benchmarks>, ghost done: set<string>, bench: string, score: array<real>)
    requires score.Length == |results| && bench !in done && AllInEveryRun(results, done + {bench})
    requires forall i :: 0 <= i < score.Length ==> score[i] == RankTotal(results, done, i) as real
    requires Sum(score[..]) == Scaled(|done|, Triangle(|results|) as real)
    modifies score
    ensures forall i :: 0 <= i < score.Length ==> score[i] == RankTotal(results, done + {bench}, i) as real
    ensures Sum(score[..]) == Scaled(|done + {bench}|, Triangle(|results|) as real)
  {
    var n := |results|;
    var order := StableOrder(Targets(results, bench));
    ghost var before := score[..];
    forall p, q | 0 <= p < q < n ensures order[p] != order[q] {
      StableOrderInjective(Targets(results, bench), order, p, q);
    }
    AddRanks(score, order);
    ghost var after := score[..];
    BenchRanksAdded(results, done, bench, before, after);
    SumStep(before, after, done, bench, Triangle(n) as real);
  }

  lemma SumStep(before: seq<real>, after: seq<real>, done: set<string>, bench: string, x: real)
    requires bench !in done
    requires Sum(before) == Scaled(|done|, x) && Sum(after) == Sum(before) + x
    ensures Sum(after) == Scaled(|done + {bench}|, x)
  {
    assert |done + {bench}| == |done| + 1;
  }

  /** The outer loop of the ranking aggregator: every run's score grows by its total rank
      over `common`. */
  method AddAllRanks(results: seq<Benchmarks>, common: set<string>, score: array<real>)
    requires score.Length == |results| && AllInEveryRun(results, common)
    requires forall i :: 0 <= i < score.Length ==> score[i] == 0.0
    modifies score
    ensures forall i :: 0 <= i < |results| ==> score[i] == RankTotal(results, common, i) as real
    ensures Sum(score[..]) == Scaled(|common|, Triangle(|results|) as real)
  {
    var n := |results|;
    assert score[..] == seq(n, _ => 0.0);
    SumZeros(n);
    var remaining := common;
    ghost var done: set<string> := {};
    while remaining != {}
      invariant remaining <= common && done == common - remaining
      invariant AllInEveryRun(results, done) && AllInEveryRun(results, remaining)
      invariant forall i :: 0 <= i < n ==> score[i] == RankTotal(results, done, i) as real
      invariant Sum(score[..]) == Scaled(|done|, Triangle(n) as real)
      decreases remaining
    {
      var bench :| bench in remaining;
      MoveOne(results, common, remaining, done, bench);
      AddBenchRanks(results, done, bench, score);
      remaining := remaining - {bench};
      done := done + {bench};
    }
    assert done == common;
  }

  /** Moving one benchmark from the remaining ones to the done ones keeps both sets inside
      the common benchmarks and apart. */
  lemma MoveOne(results: seq<Benchmarks>, common: set<string>, remaining: set<string>, done: set<string>, bench: string)
    requires remaining <= common && done == common - remaining && bench in remaining
    requires AllInEveryRun(results, done) && AllInEveryRun(results, remaining)
    ensures bench !in done
    ensures AllInEveryRun(results, done + {bench}) && AllInEveryRun(results, remaining - {bench})
    ensures remaining - {bench} <= common && done + {bench} == common - (remaining - {bench})
  {
  }

  /** The last loop of the ranking aggregator: every score is divided by `m`. */
  method DivideScores(score: array<real>, m: real)
    requires m != 0.0
    modifies score
    ensures forall k :: 0 <= k < score.Length ==> score[k] == old(score[k]) / m
    ensures Sum(score[..]) == Sum(old(score[..])) / m
  {
    for i := 0 to score.Length
      invariant forall k :: 0 <= k < i ==> score[k] == old(score[k]) / m
      invariant forall k :: i <= k < score.Length ==> score[k] == old(score[k])
    {
      score[i] := score[i] / m;
    }
    SumDivided(old(score[..]), score[..], m);
  }

  /** `RankingAggregator.aggregate`: for every common benchmark, add each run's position in
      the stable order of targets to its score; then divide by the number of common
      benchmarks. */
  method RankingAggregate(results: seq<Benchmarks>) returns (r: Raising<seq<real>>)
    ensures r == RankingScores(results)
    ensures r.Returns? && CommonBenchmarks(results) != {}
            ==> Sum(r.value) == Triangle(|results|) as real
  {
    var n := |results|;
    var score := new real[n](_ => 0.0);
    if n == 0 {
      // reduce() of an empty sequence with no initial value
      return Raises(TypeError);
    }
    var common := CommonBenchmarks(results);
    if common == {} {
      assert score[..] == seq(n, _ => 0.0);
      return Returns(score[..]);
    }
    AddAllRanks(results, common, score);
    ghost var totals := score[..];
    DivideScores(score, |common| as real);
    MeanRanksDivided(results, totals, score[..]);
    r := Returns(score[..]);
  }

  /** Dividing every run's total rank by the number of common benchmarks gives the mean
      ranks, which still sum to 0 + 1 + ... + (n - 1). */
  lemma MeanRanksDivided(results: seq<Benchmarks>, totals: seq<real>, means: seq<real>)
    requires |results| > 0 && CommonBenchmarks(results) != {}
    requires |totals| == |means| == |results|
    requires forall i :: 0 <= i < |results| ==> totals[i] == RankTotal(results, CommonBenchmarks(results), i) as real
    requires Sum(totals) == Scaled(|CommonBenchmarks(results)|, Triangle(|results|) as real)
    requires forall k :: 0 <= k < |means| ==> means[k] == totals[k] / (|CommonBenchmarks(results)| as real)
    requires Sum(means) == Sum(totals) / (|CommonBenchmarks(results)| as real)
    ensures RankingScores(results) == Returns(means)
    ensures Sum(means) == Triangle(|results|) as real
  {
    var common := CommonBenchmarks(results);
    ScaledDivided(|common|, Triangle(|results|) as real);
    forall k | 0 <= k < |means| ensures means[k] == MeanRank(results, k) {
      assert means[k] == totals[k] / (|common| as real);
    }
    assert means == RankingScores(results).value;
  }

  lemma ScaledDivided(k: nat, x: real)
    requires k > 0
    ensures Scaled(k, x) / (k as real) == x
  {
    ScaledIsProduct(k, x);
  }

  /** One pass of the outer loop: adding every run's rank on `bench` to its total over `done`
      gives its total over `done + {bench}`. */
  lemma BenchRanksAdded(results: seq<Benchmarks>, done: set<string>, bench: string, before: seq<real>, after: seq<real>)
    requires bench !in done && |before| == |after| == |results|
    requires AllInEveryRun(results, done + {bench})
    requires forall i :: 0 <= i < |results| ==> before[i] == RankTotal(results, done, i) as real
    requires var order := StableOrder(Targets(results, bench));
             forall q :: 0 <= q < |results| ==> after[order[q]] == before[order[q]] + q as real
    ensures forall i :: 0 <= i < |results| ==> after[i] == RankTotal(results, done + {bench}, i) as real
  {
    var order := StableOrder(Targets(results, bench));
    forall i | 0 <= i < |results|
      ensures after[i] == RankTotal(results, done + {bench}, i) as real
    {
      var q := IndexOf(order, i);
      assert after[order[q]] == before[order[q]] + q as real;
      RankTotalAnyOrder(results, done + {bench}, bench, i);
      assert done + {bench} - {bench} == done;
    }
  }

  lemma {:induction false} RankTotalBounds(results: seq<Benchmarks>, benches: set<string>, i: nat)
    requires i < |results|
    requires AllInEveryRun(results, benches)
    ensures RankTotal(results, benches, i) as real <= Scaled(|benches|, (|results| - 1) as real)
    decreases benches
  {
    if benches != {} {
      var b := Least(benches);
      var rest := benches - {b};
      RankTotalBounds(results, rest, i);
      assert |benches| == |rest| + 1;
    }
  }

  lemma {:induction false} RankTotalGap(results: seq<Benchmarks>, benches: set<string>, i: nat, j: nat)
    requires i < |results| && j < |results|
    requires AllInEveryRun(results, benches)
    requires forall b :: b in benches ==> results[i][b].target < results[j][b].target
    ensures RankTotal(results, benches, i) + |benches| <= RankTotal(results, benches, j)
    decreases benches
  {
    if benches != {} {
      var b := Least(benches);
      RankTotalGap(results, benches - {b}, i, j);
      RankFollowsTarget(results, b, i, j);
      assert |benches - {b}| == |benches| - 1;
    }
  }

  /** A run that is strictly faster than another on every common benchmark has a strictly
      smaller mean rank. */
  lemma MeanRankMonotone(results: seq<Benchmarks>, i: nat, j: nat)
    requires i < |results| && j < |results| && CommonBenchmarks(results) != {}
    requires forall b :: b in CommonBenchmarks(results) ==> results[i][b].target < results[j][b].target
    ensures MeanRank(results, i) < MeanRank(results, j)
  {
    var common := CommonBenchmarks(results);
    RankTotalGap(results, common, i, j);
    var m := |common| as real;
    DivideStrict(RankTotal(results, common, i) as real, RankTotal(results, common, j) as real, m);
  }

  lemma DivideStrict(a: real, b: real, m: real)
    requires m > 0.0 && a + m <= b
    ensures a / m < b / m
  {
    assert b / m - a / m == (b - a) / m;
  }

  /** Three runs with targets 10, 5 and 20 on their one benchmark "b". */
  function ExampleRuns(): seq<Benchmarks> {
    [map["b" := NewResult(10.0)], map["b" := NewResult(5.0)], map["b" := NewResult(20.0)]]
  }

  lemma ExampleRanks()
    ensures CommonBenchmarks(ExampleRuns()) == {"b"}
    ensures BenchRank(ExampleRuns(), "b", 0) == 1
    ensures BenchRank(ExampleRuns(), "b", 1) == 0
    ensures BenchRank(ExampleRuns(), "b", 2) == 2
  {
    var results := ExampleRuns();
    RankFollowsTarget(results, "b", 1, 0);
    RankFollowsTarget(results, "b", 0, 2);
    assert forall b :: b in CommonBenchmarks(results) <==> b == "b";
  }

  /** The example runs score 1, 0 and 2: the fastest run ranks 0. */
  lemma RankingExample()
    ensures RankingScores(ExampleRuns()) == Returns([1.0, 0.0, 2.0])
  {
    var results := ExampleRuns();
    ExampleRanks();
    ExampleMeanRank(0);
    ExampleMeanRank(1);
    ExampleMeanRank(2);
    RankingScoresAt(results);
    var scores := RankingScores(results).value;
    assert scores[0] == 1.0 && scores[1] == 0.0 && scores[2] == 2.0;
    assert scores == [1.0, 0.0, 2.0];
  }

  lemma RankingScoresAt(results: seq<Benchmarks>)
    requires |results| > 0 && CommonBenchmarks(results) != {}
    ensures RankingScores(results).Returns? && |RankingScores(results).value| == |results|
    ensures forall i :: 0 <= i < |results| ==> RankingScores(results).value[i] == MeanRank(results, i)
  {
  }

  lemma ExampleMeanRank(i: nat)
    requires i < 3
    ensures CommonBenchmarks(ExampleRuns()) == {"b"}
    ensures MeanRank(ExampleRuns(), i) == BenchRank(ExampleRuns(), "b", i) as real
  {
    var results := ExampleRuns();
    ExampleRanks();
    RankTotalAnyOrder(results, {"b"}, "b", i);
    assert {"b"} - {"b"} == {};
    assert RankTotal(results, {}, i) == 0;
    var total := RankTotal(results, {"b"}, i);
    assert total == BenchRank(results, "b", i);
    assert |{"b"}| == 1;
    assert MeanRank(results, i) == (total as real) / 1.0;
  }

  // ---------------------------------------------------------------------------------------
  // Dispatch and presets

  /** What `aggregate(results)` returns for each kind of aggregator. */
  function AggregateOf(agg: Aggregator, results: seq<Benchmarks>): (r: Raising<seq<real>>)
    ensures !agg.Custom? && r.Returns? ==> |r.value| == |results|
    ensures agg.Ranking? ==> (r.Raises? <==> results == [])
  {
    match agg
    case Independent(f) => IndependentAggregate(f, results)
    case Ranking => RankingScores(results)
    case Custom(fn, _, _) => fn(results)
  }

  /** `aggregate(results)` on any aggregator. */
  method Aggregate(agg: Aggregator, results: seq<Benchmarks>) returns (r: Raising<seq<real>>)
    ensures r == AggregateOf(agg, results)
  {
    match agg {
      case Independent(f) => r := IndependentAggregate(f, results);
      case Ranking => r := RankingAggregate(results);
      case Custom(fn, _, _) => r := fn(results);
    }
  }

  const DefaultAggregator: string := "mean"

  /** The presets the module starts with. */
  function DefaultPresets(): (presets: map<string, Aggregator>)
    ensures presets.Keys == {"ranking", "mean"}
    ensures presets["ranking"] == Ranking && presets["mean"].Independent?
    ensures Unit(presets["mean"]) == "unit" && Unit(presets["ranking"]) == "mean rank"
    ensures LowerIsBetter(presets["mean"]) && LowerIsBetter(presets["ranking"])
  {
    map["ranking" := Ranking, "mean" := Independent(Mean)]
  }

  /** `aggregator_presets`, which `register_aggregator` extends. */
  class AggregatorRegistry {
    var presets: map<string, Aggregator>

    constructor ()
      ensures presets == DefaultPresets()
    {
      presets := DefaultPresets();
    }

    /** `register_aggregator(agg, name)`: adds or replaces one entry. */
    method Register(agg: Aggregator, name: string)
      modifies this
      ensures presets == old(presets)[name := agg]
    {
      presets := presets[name := agg];
    }
  }

  /** `aggregator_presets[aggregator if aggregator else DEFAULT_AGGREGATOR]`: an absent or
      empty name selects "mean"; an unknown name raises KeyError. */
  function LookupPreset(presets: map<string, Aggregator>, name: Option<string>): (r: Raising<Aggregator>)
    ensures var chosen := if name.None? || name.value == "" then DefaultAggregator else name.value;
            (r.Returns? <==> chosen in presets)
            && (r.Returns? ==> r.value == presets[chosen])
            && (r.Raises? ==> r.error == KeyError)
  {
    var chosen := if name.None? || name.value == "" then DefaultAggregator else name.value;
    if chosen in presets then Returns(presets[chosen]) else Raises(KeyError)
  }

  /** The presets shipped: no name or "mean" selects the mean, "ranking" the ranking
      aggregator, and any other name is a KeyError. */
  lemma DefaultPresetLookups(name: string)
    requires name !in {"", "mean", "ranking"}
    ensures LookupPreset(DefaultPresets(), None) == Returns(Independent(Mean))
    ensures LookupPreset(DefaultPresets(), Some("")) == Returns(Independent(Mean))
    ensures LookupPreset(DefaultPresets(), Some("ranking")) == Returns(Ranking)
    ensures LookupPreset(DefaultPresets(), Some(name)) == Raises(KeyError)
  {
  }

  /** After `register_aggregator(agg, name)` the name selects `agg` (the empty name never
      can), and every lookup that selects another name is unaffected. */
  lemma RegisterThenLookup(presets: map<string, Aggregator>, agg: Aggregator, name: string, other: Option<string>)
    ensures name != "" ==> LookupPreset(presets[name := agg], Some(name)) == Returns(agg)
    ensures LookupPreset(presets[name := agg], Some("")) == LookupPreset(presets[name := agg], None)
    ensures (if other.None? || other.value == "" then DefaultAggregator else other.value) != name
            ==> LookupPreset(presets[name := agg], other) == LookupPreset(presets, other)
  {
  }
}
