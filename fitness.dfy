/**
 * The population statistics of game.js's GeneticAlgorithm: the fitness
 * `calculateFitness` assigns, the descending sort by fitness that both it and
 * `selectParentTournament` perform, and the generation timeout rule.
 */
module Fitness {
  import opened World

  /** A bird's raw performance: `bird.score + bird.timeAlive`. */
  function Raw(b: Bird): nat
  {
    b.score + b.timeAlive
  }

  /** `totalScore`: the sum of every bird's raw performance. */
  function TotalScore(birds: seq<Bird>): nat
  {
    if birds == [] then 0 else Raw(birds[0]) + TotalScore(birds[1..])
  }

  /** `bird.fitness = (bird.score + bird.timeAlive) / totalScore` for every bird, in place. */
  function WithFitness(birds: seq<Bird>, total: nat): (r: seq<Bird>)
    requires 0 < total
    ensures |r| == |birds|
    ensures forall i :: 0 <= i < |birds| ==> r[i] == birds[i].(fitness := Raw(birds[i]) as real / total as real)
  {
    seq(|birds|, i requires 0 <= i < |birds| => birds[i].(fitness := Raw(birds[i]) as real / total as real))
  }

  function SumFitness(birds: seq<Bird>): real
  {
    if birds == [] then 0.0 else birds[0].fitness + SumFitness(birds[1..])
  }

  lemma {:induction false} SumWithFitness(birds: seq<Bird>, total: nat)
    requires 0 < total
    ensures SumFitness(WithFitness(birds, total)) == TotalScore(birds) as real / total as real
  {
    if birds != [] {
      SumWithFitness(birds[1..], total);
      var w := WithFitness(birds, total);
      assert w[1..] == WithFitness(birds[1..], total);
      assert w[0].fitness == Raw(birds[0]) as real / total as real;
      AddShares(Raw(birds[0]) as real, TotalScore(birds[1..]) as real, total as real);
    }
  }

  lemma AddShares(a: real, b: real, t: real)
    requires t != 0.0
    ensures a / t + b / t == (a + b) / t
  {
  }

  /** With a positive total, the fitness values `calculateFitness` assigns sum to 1. */
  lemma FitnessSumsToOne(birds: seq<Bird>)
    requires 0 < TotalScore(birds)
    ensures SumFitness(WithFitness(birds, TotalScore(birds))) == 1.0
  {
    var total := TotalScore(birds);
    SumWithFitness(birds, total);
    DivSelf(total as real);
  }

  lemma DivSelf(x: real)
    requires x != 0.0
    ensures x / x == 1.0
  {
  }

  /** Each fitness lies in [0, 1]. */
  lemma {:induction false} FitnessInUnitRange(birds: seq<Bird>)
    requires 0 < TotalScore(birds)
    ensures forall i :: 0 <= i < |birds| ==> 0.0 <= WithFitness(birds, TotalScore(birds))[i].fitness <= 1.0
  {
    var total := TotalScore(birds);
    forall i | 0 <= i < |birds|
      ensures 0.0 <= WithFitness(birds, total)[i].fitness <= 1.0
    {
      RawAtMostTotal(birds, i);
      ShareInUnitRange(Raw(birds[i]), total);
    }
  }

  lemma ShareInUnitRange(part: nat, total: nat)
    requires 0 < total && part <= total
    ensures 0.0 <= part as real / total as real <= 1.0
  {
  }

  lemma {:induction false} RawAtMostTotal(birds: seq<Bird>, i: nat)
    requires i < |birds|
    ensures Raw(birds[i]) <= TotalScore(birds)
  {
    if i > 0 {
      RawAtMostTotal(birds[1..], i - 1);
    }
  }

  /** Once every bird has lived at least one tick, the total is positive. */
  lemma {:induction false} TotalPositive(birds: seq<Bird>)
    requires birds != [] && forall i :: 0 <= i < |birds| ==> 1 <= birds[i].timeAlive
    ensures |birds| <= TotalScore(birds)
  {
    if |birds| > 1 {
      TotalPositive(birds[1..]);
    }
  }

  // ----------------------------------------------------------------- sorting

  /** Ordered by descending fitness, as `sort((a, b) => b.fitness - a.fitness)` leaves an array. */
  predicate SortedDesc(s: seq<Bird>)
  {
    forall i, j :: 0 <= i < j < |s| ==> s[i].fitness >= s[j].fitness
  }

  /**
   * `b` put into `t` after every bird at least as fit as it: one step of an
   * insertion sort, which keeps birds of equal fitness in their order.
   */
  function Insert(t: seq<Bird>, b: Bird): (r: seq<Bird>)
    ensures |r| == |t| + 1 && multiset(r) == multiset(t) + multiset{b}
  {
    if t == [] then [b]
    else if t[0].fitness >= b.fitness then
      assert t == [t[0]] + t[1..];
      [t[0]] + Insert(t[1..], b)
    else [b] + t
  }

  /** No bird of `t` is fitter than `x`. */
  predicate AtMost(t: seq<Bird>, x: real)
  {
    forall j :: 0 <= j < |t| ==> t[j].fitness <= x
  }

  lemma {:induction false} InsertAtMost(t: seq<Bird>, b: Bird, x: real)
    requires AtMost(t, x) && b.fitness <= x
    ensures AtMost(Insert(t, b), x)
  {
    if t != [] && t[0].fitness >= b.fitness {
      InsertAtMost(t[1..], b, x);
    }
  }

  /** Inserting into a descending sequence keeps it descending. */
  lemma {:induction false} InsertSorted(t: seq<Bird>, b: Bird)
    requires SortedDesc(t)
    ensures SortedDesc(Insert(t, b))
  {
    if t == [] {
    } else if t[0].fitness >= b.fitness {
      InsertSorted(t[1..], b);
      InsertAtMost(t[1..], b, t[0].fitness);
      var rest := Insert(t[1..], b);
      assert Insert(t, b) == [t[0]] + rest;
    } else {
      assert AtMost(t, t[0].fitness);
    }
  }

  /** The birds of `s` whose fitness is exactly `v`, in their order in `s`. */
  function OfFitness(s: seq<Bird>, v: real): seq<Bird>
  {
    if s == [] then [] else (if s[0].fitness == v then [s[0]] else []) + OfFitness(s[1..], v)
  }

  lemma {:induction false} OfFitnessSnoc(s: seq<Bird>, b: Bird, v: real)
    ensures OfFitness(s + [b], v) == OfFitness(s, v) + (if b.fitness == v then [b] else [])
  {
    var last := if b.fitness == v then [b] else [];
    if s == [] {
      assert s + [b] == [b] && [b][1..] == [];
    } else {
      var head := if s[0].fitness == v then [s[0]] else [];
      var sb := s + [b];
      assert sb[0] == s[0] && sb[1..] == s[1..] + [b];
      assert OfFitness(sb, v) == head + OfFitness(s[1..] + [b], v);
      OfFitnessSnoc(s[1..], b, v);
      assert OfFitness(s, v) == head + OfFitness(s[1..], v);
      ConcatAssoc(head, OfFitness(s[1..], v), last);
    }
  }

  lemma OfFitnessCons(s: seq<Bird>, v: real)
    requires s != []
    ensures OfFitness(s, v) == (if s[0].fitness == v then [s[0]] else []) + OfFitness(s[1..], v)
  {
  }

  lemma {:induction false} OfFitnessBelow(t: seq<Bird>, v: real)
    requires forall j :: 0 <= j < |t| ==> t[j].fitness < v
    ensures OfFitness(t, v) == []
  {
    if t != [] {
      OfFitnessBelow(t[1..], v);
    }
  }

  /**
   * Insertion keeps birds of equal fitness in order: among the birds of its
   * own fitness, `b` lands after every one already in `t`.
   */
  lemma {:induction false} InsertStable(t: seq<Bird>, b: Bird, v: real)
    requires SortedDesc(t)
    ensures OfFitness(Insert(t, b), v) == OfFitness(t, v) + (if b.fitness == v then [b] else [])
  {
    var last := if b.fitness == v then [b] else [];
    if t == [] {
      assert Insert(t, b) == [b] && [b][1..] == [];
    } else if t[0].fitness >= b.fitness {
      SortedTail(t);
      InsertStable(t[1..], b, v);
      var rest := Insert(t[1..], b);
      var head := if t[0].fitness == v then [t[0]] else [];
      var r := [t[0]] + rest;
      assert Insert(t, b) == r;
      assert r[0] == t[0] && r[1..] == rest;
      OfFitnessCons(r, v);
      OfFitnessCons(t, v);
      ConcatAssoc(head, OfFitness(t[1..], v), last);
    } else {
      var r := [b] + t;
      assert Insert(t, b) == r;
      assert r[0] == b && r[1..] == t;
      OfFitnessCons(r, v);
      if b.fitness == v {
        forall j | 0 <= j < |t|
          ensures t[j].fitness < v
        {
          assert t[0].fitness >= t[j].fitness;
        }
        OfFitnessBelow(t, v);
      }
    }
  }

  lemma SortedTail(t: seq<Bird>)
    requires SortedDesc(t) && t != []
    ensures SortedDesc(t[1..])
  {
    forall i, j | 0 <= i < j < |t| - 1
      ensures t[1..][i].fitness >= t[1..][j].fitness
    {
      assert t[1..][i] == t[i + 1] && t[1..][j] == t[j + 1];
    }
  }

  /**
   * `birds.sort((a, b) => b.fitness - a.fitness)`: the same birds, by
   * descending fitness, and birds of equal fitness keep their order, as
   * the engine's stable sort leaves them (an insertion sort).
   */
  method SortByFitness(s: seq<Bird>) returns (t: seq<Bird>)
    ensures |t| == |s| && multiset(t) == multiset(s)
    ensures SortedDesc(t)
    ensures forall v :: OfFitness(t, v) == OfFitness(s, v)
  {
    t := [];
    var i := 0;
    while i < |s|
      invariant 0 <= i <= |s| && |t| == i
      invariant multiset(t) == multiset(s[..i])
      invariant SortedDesc(t)
      invariant forall v :: OfFitness(t, v) == OfFitness(s[..i], v)
    {
      assert s[..i + 1] == s[..i] + [s[i]];
      forall v
        ensures OfFitness(Insert(t, s[i]), v) == OfFitness(s[..i + 1], v)
      {
        InsertStable(t, s[i], v);
        OfFitnessSnoc(s[..i], s[i], v);
      }
      InsertSorted(t, s[i]);
      t := Insert(t, s[i]);
      i := i + 1;
    }
    assert s[..i] == s;
  }

  /** `b` is the first bird of `s` that no bird of `s` is fitter than. */
  ghost predicate FirstFittest(s: seq<Bird>, b: Bird)
  {
    exists w :: 0 <= w < |s| && s[w] == b
      && (forall j :: 0 <= j < w ==> s[j].fitness < b.fitness)
      && (forall j :: 0 <= j < |s| ==> s[j].fitness <= b.fitness)
  }

  /** The first bird of `s` with fitness `v` heads `OfFitness(s, v)`. */
  lemma {:induction false} FirstOf(s: seq<Bird>, v: real) returns (w: nat)
    requires OfFitness(s, v) != []
    ensures w < |s| && s[w] == OfFitness(s, v)[0] && s[w].fitness == v
    ensures forall j :: 0 <= j < w ==> s[j].fitness != v
  {
    if s[0].fitness == v {
      w := 0;
    } else {
      var w' := FirstOf(s[1..], v);
      w := w' + 1;
    }
  }

  /**
   * After a stable sort by descending fitness, the first bird is the
   * earliest, in the original order, of the fittest birds.
   */
  lemma StableFirst(sorted: seq<Bird>, s: seq<Bird>) returns (w: nat)
    requires SortedDesc(sorted) && multiset(sorted) == multiset(s) && 0 < |sorted|
    requires forall v :: OfFitness(sorted, v) == OfFitness(s, v)
    ensures w < |s| && s[w] == sorted[0]
    ensures forall j :: 0 <= j < w ==> s[j].fitness < sorted[0].fitness
    ensures FirstFittest(s, sorted[0])
  {
    FittestFirst(sorted, s);
    var v := sorted[0].fitness;
    assert OfFitness(sorted, v) == [sorted[0]] + OfFitness(sorted[1..], v);
    w := FirstOf(s, v);
    forall j | 0 <= j < w
      ensures s[j].fitness < v
    {
      assert s[j] in s;
    }
    forall j | 0 <= j < |s|
      ensures s[j].fitness <= v
    {
      assert s[j] in s;
    }
  }

  /** After a sort the first bird is one of the birds sorted, and none of them is fitter. */
  lemma FittestFirst(sorted: seq<Bird>, s: seq<Bird>)
    requires SortedDesc(sorted) && multiset(sorted) == multiset(s) && 0 < |sorted|
    ensures sorted[0] in s
    ensures forall b :: b in s ==> b.fitness <= sorted[0].fitness
  {
    assert sorted[0] in multiset(s);
    forall b | b in s
      ensures b.fitness <= sorted[0].fitness
    {
      assert b in multiset(sorted);
      var j :| 0 <= j < |sorted| && sorted[j] == b;
      if j > 0 {
        assert sorted[0].fitness >= sorted[j].fitness;
      }
    }
  }

  // ------------------------------------------------------------------ timeout

  const TIMEOUT_STEP: int := 500
  const TIMEOUT_FLOOR: int := 3000

  /** `Math.max(this.generation * 500, 3000)`: the ticks a new generation is given. */
  function NextTimeout(generation: nat): (t: int)
    ensures TIMEOUT_FLOOR <= t && generation * TIMEOUT_STEP <= t
    ensures t == TIMEOUT_FLOOR || t == generation * TIMEOUT_STEP
  {
    if generation * TIMEOUT_STEP > TIMEOUT_FLOOR then generation * TIMEOUT_STEP else TIMEOUT_FLOOR
  }
}
