/**
 * game.js's GeneticAlgorithm: the population state machine. Each `update`
 * advances the pipes and every bird by one tick, counts the timeout down and
 * turns the generation over when every bird is dead or the timeout has run
 * out. A turnover computes fitness, breeds the next population (tournament
 * and random selection, single-point crossover of `weights_ih`, mutation)
 * and carries a copy of the best bird over unchanged.
 */
module Genetic {
  import opened Options
  import opened Draws
  import opened Matrices
  import opened Networks
  import opened World
  import opened Fitness

  const POPULATION_SIZE: nat := 2000
  const MUTATION_RATE: real := 0.2
  const TOURNAMENT_SIZE: nat := 5
  const INITIAL_TIMEOUT: int := 1000
  /** Draws of `randomColor()`: one per colour channel. */
  const COLOR_DRAWS: nat := 3

  /**
   * The child brain of `crossover`: parent A's network with the rows of
   * `weights_ih` from `split` on taken from parent B.
   */
  function CrossedBrain(a: Network, b: Network, split: nat): (c: Network)
    requires a.Valid() && b.Valid() && a.hiddenNodes == b.hiddenNodes && a.inputNodes == b.inputNodes
    requires split <= a.hiddenNodes
    ensures c.Valid()
  {
    a.(weightsIH := a.weightsIH.(data := a.weightsIH.data[..split] + b.weightsIH.data[split..]))
  }

  /** `net'` is `net` after `mutate`: the same topology and cache, each entry kept or moved by a delta in [-0.05, 0.05). */
  predicate MutationOf(net: Network, net': Network)
  {
    && net'.inputNodes == net.inputNodes && net'.hiddenNodes == net.hiddenNodes && net'.outputNodes == net.outputNodes
    && net'.hiddenActivations == net.hiddenActivations && net'.outputActivations == net.outputActivations
    && Near(net.weightsIH, net'.weightsIH) && Near(net.weightsHO, net'.weightsHO)
    && Near(net.biasH, net'.biasH) && Near(net.biasO, net'.biasO)
  }

  /**
   * `c` is what one round of `generateNewPopulation` can produce from
   * `birds`: a new bird whose brain is a mutation of a single-point
   * crossover of two birds of the population.
   */
  ghost predicate Offspring(c: Bird, birds: seq<Bird>, canvas: Canvas)
  {
    && c == NewBird(canvas, c.brain) && HasBrain(c)
    && exists a, b, split: nat :: a in birds && b in birds && HasBrain(a) && HasBrain(b) && split < HIDDEN_NODES
         && MutationOf(CrossedBrain(Copy(a.brain), b.brain, split), c.brain)
  }

  lemma OffspringAmong(c: Bird, birds: seq<Bird>, others: seq<Bird>, canvas: Canvas)
    requires Offspring(c, birds, canvas) && multiset(birds) == multiset(others)
    ensures Offspring(c, others, canvas)
  {
    var a, b, split: nat :| a in birds && b in birds && HasBrain(a) && HasBrain(b) && split < HIDDEN_NODES
         && MutationOf(CrossedBrain(Copy(a.brain), b.brain, split), c.brain);
    assert a in multiset(others) && b in multiset(others);
  }

  lemma OffspringIntro(c: Bird, a: Bird, b: Bird, split: nat, birds: seq<Bird>, canvas: Canvas)
    requires a in birds && b in birds && HasBrain(a) && HasBrain(b) && split < HIDDEN_NODES
    requires c == NewBird(canvas, c.brain) && HasBrain(c)
    requires MutationOf(CrossedBrain(Copy(a.brain), b.brain, split), c.brain)
    ensures Offspring(c, birds, canvas)
  {
  }

  /** `child.brain.mutate(MUTATION_RATE)` on a reset child. */
  method MutateChild(b: Bird, canvas: Canvas, rng: nat -> real, k: nat) returns (child: Bird, k': nat)
    requires Uniform(rng) && HasBrain(b) && b == NewBird(canvas, b.brain)
    ensures child == NewBird(canvas, child.brain) && HasBrain(child) && MutationOf(b.brain, child.brain)
    ensures (child.brain, k') == Mutated(b.brain, MUTATION_RATE, rng, k)
  {
    var brain;
    brain, k' := Mutate(b.brain, MUTATION_RATE, rng, k);
    MutatedChild(b, canvas, rng, k);
    child := b.(brain := brain);
  }

  /** A reset child whose brain goes through `mutate(0.2)` is still a new bird with a brain, its brain a mutation of the old one. */
  lemma MutatedChild(b: Bird, canvas: Canvas, rng: nat -> real, k: nat)
    requires Uniform(rng) && HasBrain(b) && b == NewBird(canvas, b.brain)
    ensures var c := b.(brain := Mutated(b.brain, MUTATION_RATE, rng, k).0);
      c == NewBird(canvas, c.brain) && HasBrain(c) && MutationOf(b.brain, c.brain)
  {
    MutatedNear(b.brain, MUTATION_RATE, rng, k);
  }

  /**
   * A population bred from `birds` (offspring, then a copy of a bird with a
   * brain) is bred from any reordering of `birds`, and every bird of it is
   * sound.
   */
  lemma BredAmong(population: seq<Bird>, birds: seq<Bird>, others: seq<Bird>, canvas: Canvas)
    requires canvas.Valid() && |population| == POPULATION_SIZE && multiset(birds) == multiset(others)
    requires forall i :: 0 <= i < POPULATION_SIZE - 1 ==> Offspring(population[i], birds, canvas)
    requires HasBrain(population[POPULATION_SIZE - 1])
    requires population[POPULATION_SIZE - 1].y == canvas.height as real / 2.0
    ensures forall i :: 0 <= i < POPULATION_SIZE - 1 ==> Offspring(population[i], others, canvas)
    ensures forall i :: 0 <= i < POPULATION_SIZE ==> Sound(population[i], canvas)
  {
    forall i | 0 <= i < POPULATION_SIZE - 1
      ensures Offspring(population[i], others, canvas)
    {
      OffspringAmong(population[i], birds, others, canvas);
    }
    forall i | 0 <= i < POPULATION_SIZE
      ensures Sound(population[i], canvas)
    {
      NewBirdSound(population[i], canvas);
    }
  }

  /**
   * What the population keeps true of every bird: it has a 5-8-1 brain, and
   * it has either lived a tick already or sits inside the band where `update`
   * lets it live one.
   */
  predicate Sound(b: Bird, canvas: Canvas)
  {
    HasBrain(b) && (1 <= b.timeAlive || InBounds(b, canvas))
  }

  /** Reordering the population keeps every bird sound. */
  lemma PermutedStaysSound(s: seq<Bird>, t: seq<Bird>, canvas: Canvas)
    requires multiset(s) == multiset(t)
    requires forall i :: 0 <= i < |s| ==> Sound(s[i], canvas)
    ensures forall i :: 0 <= i < |t| ==> Sound(t[i], canvas)
  {
    forall i | 0 <= i < |t|
      ensures Sound(t[i], canvas)
    {
      assert t[i] in multiset(s);
    }
  }

  /** A bird that starts out in `new Bird` position is sound once it has a brain: half way down fits on a valid canvas. */
  lemma NewBirdSound(b: Bird, canvas: Canvas)
    requires canvas.Valid() && HasBrain(b) && b.y == canvas.height as real / 2.0
    ensures Sound(b, canvas)
  {
  }

  /**
   * What one tick does to a bird at most: it keeps its column and its
   * weights, its score and age never drop, and a dead bird stays dead.
   */
  predicate Follows(b: Bird, b': Bird)
  {
    && b'.x == b.x && b'.brain.SameWeights(b.brain)
    && b.score <= b'.score && b.timeAlive <= b'.timeAlive
    && (b.isDead ==> b'.isDead)
  }

  /** The best bird `calculateFitness` starts from: the stored one, or the live first bird of generation 1. */
  function Resolved(best: Option<Bird>, scored: seq<Bird>): (b: Bird)
    requires 0 < |scored|
    ensures best.None? ==> b == scored[0]
    ensures best.Some? ==> b == best.value
  {
    if best.Some? then best.value else scored[0]
  }

  /** `selectParentRandom()`: the bird at index floor(r * birds.length). */
  function SelectParentRandom(birds: seq<Bird>, r: real): (b: Bird)
    requires 0 < |birds| && 0.0 <= r < 1.0
    ensures b in birds
  {
    birds[PickIndex(r, |birds|)]
  }

  /**
   * What `nextGeneration()` makes of the population `prev` and best bird
   * `prevBest`: 1999 offspring of `prev` scored, a copy of the new best bird
   * last, three fresh pipes from the last three draws, and a best bird that
   * is the first of the fittest scored birds when it scored strictly more than
   * the previous one, and the previous one otherwise.
   */
  ghost predicate Bred(prev: seq<Bird>, prevBest: Option<Bird>, birds: seq<Bird>, pipes: seq<Pipe>,
                       best: Option<Bird>, drawn: nat, canvas: Canvas, rng: nat -> real)
  {
    && |birds| == POPULATION_SIZE && Uniform(rng) && 0 < TotalScore(prev)
    && best.Some? && HasBrain(best.value)
    && |pipes| == 3 && 3 <= drawn
    && (forall i :: 0 <= i < 3 ==> pipes[i] == NewPipe(canvas, canvas.width + i * PIPE_SPACING, 0, rng(drawn - 3 + i)))
    && birds[POPULATION_SIZE - 1] == BirdCopy(best.value, canvas)
    && var scored := WithFitness(prev, TotalScore(prev));
       && (forall i :: 0 <= i < POPULATION_SIZE - 1 ==> Offspring(birds[i], scored, canvas))
       && var before := Resolved(prevBest, scored);
          exists f :: FirstFittest(scored, f) && best.value == (if before.score < f.score then f else before)
  }

  class GeneticAlgorithm {
    const canvas: Canvas
    /** The generator that stands for `Math.random()`, and the sigmoid the brains use. */
    const rng: nat -> real
    const sigmoid: real -> real
    /** How many `Math.random()` calls have been made so far. */
    var drawn: nat
    var birds: seq<Bird>
    var pipes: seq<Pipe>
    var generation: nat
    /**
     * The best bird so far. The source stores `this.birds[0]` at construction,
     * a live reference into the first population; None stands for that
     * reference until the first turnover resolves it.
     */
    var bestBird: Option<Bird>
    var timeout: int

    /** Everything but the timeout bound, which an `update` breaks for a moment before the checks run. */
    ghost predicate Consistent()
      reads this
    {
      && canvas.Valid() && Uniform(rng)
      && |birds| == POPULATION_SIZE && 0 < |pipes|
      && 1 <= generation && (bestBird.None? ==> generation == 1)
      && (forall i :: 0 <= i < |birds| ==> Sound(birds[i], canvas))
      && (bestBird.Some? ==> HasBrain(bestBird.value))
    }

    ghost predicate Valid()
      reads this
    {
      Consistent() && 1 <= timeout
    }

    /**
     * The state `nextGeneration()` leaves behind, given the population `prev`
     * and best bird `prevBest` it started from.
     */
    ghost predicate BredFrom(prev: seq<Bird>, prevBest: Option<Bird>)
      reads this
    {
      Bred(prev, prevBest, birds, pipes, bestBird, drawn, canvas, rng)
    }

    /**
     * `new GeneticAlgorithm()`: 2000 new birds (each a random colour, then a
     * random brain), three pipes, generation 1, a timeout of 1000.
     */
    constructor (canvas: Canvas, rng: nat -> real, sigmoid: real -> real)
      requires canvas.Valid() && Uniform(rng)
      ensures Valid()
      ensures this.canvas == canvas && this.rng == rng && this.sigmoid == sigmoid
      ensures forall i :: 0 <= i < POPULATION_SIZE ==>
        birds[i] == RandomBird(canvas, rng, i * (COLOR_DRAWS + BIRD_INIT_DRAWS) + COLOR_DRAWS)
      ensures generation == 1 && bestBird.None? && timeout == INITIAL_TIMEOUT
      ensures drawn == POPULATION_SIZE * (COLOR_DRAWS + BIRD_INIT_DRAWS) + 3
      ensures |pipes| == 3 && forall i :: 0 <= i < 3 ==> pipes[i] == NewPipe(canvas, canvas.width + i * PIPE_SPACING, 0, rng(drawn - 3 + i))
    {
      this.canvas := canvas;
      this.rng := rng;
      this.sigmoid := sigmoid;
      var population: seq<Bird> := [];
      var k := 0;
      while |population| < POPULATION_SIZE
        invariant |population| <= POPULATION_SIZE
        invariant k == |population| * (COLOR_DRAWS + BIRD_INIT_DRAWS)
        invariant forall i :: 0 <= i < |population| ==>
          population[i] == RandomBird(canvas, rng, i * (COLOR_DRAWS + BIRD_INIT_DRAWS) + COLOR_DRAWS)
      {
        population := population + [RandomBird(canvas, rng, k + COLOR_DRAWS)];
        k := k + COLOR_DRAWS + BIRD_INIT_DRAWS;
      }
      var generated, k' := GeneratePipes(canvas, rng, k);
      birds := population;
      pipes := generated;
      drawn := k';
      generation := 1;
      bestBird := None;
      timeout := INITIAL_TIMEOUT;
    }

    /**
     * `selectParentTournament()`: five birds drawn with replacement, sorted by
     * descending fitness, the first returned. The winner is one of the five
     * draws, no draw is fitter, and since the sort is stable no earlier draw
     * is as fit.
     */
    method SelectParentTournament(k: nat) returns (winner: Bird, k': nat)
      requires Consistent()
      ensures k' == k + TOURNAMENT_SIZE
      ensures exists d ::
        && k <= d < k' && winner == SelectParentRandom(birds, rng(d))
        && forall e :: k <= e < d ==> SelectParentRandom(birds, rng(e)).fitness < winner.fitness
      ensures forall d :: k <= d < k' ==> SelectParentRandom(birds, rng(d)).fitness <= winner.fitness
    {
      var tournament: seq<Bird> := [];
      var i := 0;
      while i < TOURNAMENT_SIZE
        invariant 0 <= i <= TOURNAMENT_SIZE && |tournament| == i
        invariant forall t :: 0 <= t < i ==> tournament[t] == SelectParentRandom(birds, rng(k + t))
      {
        tournament := tournament + [birds[PickIndex(rng(k + i), |birds|)]];
        i := i + 1;
      }
      var sorted := SortByFitness(tournament);
      winner := sorted[0];
      k' := k + TOURNAMENT_SIZE;
      ghost var w := StableFirst(sorted, tournament);
      assert winner == SelectParentRandom(birds, rng(k + w));
      forall e | k <= e < k + w
        ensures SelectParentRandom(birds, rng(e)).fitness < winner.fitness
      {
        assert tournament[e - k] == SelectParentRandom(birds, rng(e));
      }
      forall d | k <= d < k'
        ensures SelectParentRandom(birds, rng(d)).fitness <= winner.fitness
      {
        assert tournament[d - k] in tournament;
      }
    }

    /**
     * `crossover(parentA, parentB)`: a copy of parent A whose `weights_ih`
     * rows from a random split index on are parent B's rows. Everything else
     * in the brain is parent A's, and the child starts afresh.
     */
    method Crossover(parentA: Bird, parentB: Bird, k: nat) returns (child: Bird, k': nat)
      requires Consistent() && HasBrain(parentA) && HasBrain(parentB)
      ensures k' == k + BIRD_COPY_DRAWS + 1
      ensures HasBrain(child) && child == NewBird(canvas, child.brain)
      ensures var split := PickIndex(rng(k + BIRD_COPY_DRAWS), HIDDEN_NODES);
        && child.brain == CrossedBrain(Copy(parentA.brain), parentB.brain, split)
        && (forall i :: 0 <= i < split ==> child.brain.weightsIH.data[i] == parentA.brain.weightsIH.data[i])
        && (forall i :: split <= i < HIDDEN_NODES ==> child.brain.weightsIH.data[i] == parentB.brain.weightsIH.data[i])
      ensures child.brain.weightsIH.data[HIDDEN_NODES - 1] == parentB.brain.weightsIH.data[HIDDEN_NODES - 1]
      ensures child.brain.weightsHO == parentA.brain.weightsHO
      ensures child.brain.biasH == parentA.brain.biasH && child.brain.biasO == parentA.brain.biasO
    {
      child := BirdCopy(parentA, canvas);
      var rows := child.brain.weightsIH.data;
      var split := PickIndex(rng(k + BIRD_COPY_DRAWS), |rows|);
      var i := split;
      while i < |rows|
        invariant split <= i <= |rows| == HIDDEN_NODES
        invariant |rows| == HIDDEN_NODES
        invariant forall r :: 0 <= r < split ==> rows[r] == parentA.brain.weightsIH.data[r]
        invariant forall r :: split <= r < i ==> rows[r] == parentB.brain.weightsIH.data[r]
        invariant forall r :: i <= r < |rows| ==> rows[r] == parentA.brain.weightsIH.data[r]
      {
        rows := rows[i := parentB.brain.weightsIH.data[i]];
        i := i + 1;
      }
      assert rows == parentA.brain.weightsIH.data[..split] + parentB.brain.weightsIH.data[split..];
      child := child.(brain := child.brain.(weightsIH := child.brain.weightsIH.(data := rows)));
      k' := k + BIRD_COPY_DRAWS + 1;
    }

    /**
     * One round of `generateNewPopulation`'s loop: a tournament winner and a
     * random bird, their crossover, a new colour (three draws), score and
     * time alive reset, and `mutate(0.2)`.
     */
    method Breed(k: nat) returns (child: Bird, k': nat)
      requires Consistent()
      ensures Offspring(child, birds, canvas)
    {
      var parentA, k1 := SelectParentTournament(k);
      var parentB := SelectParentRandom(birds, rng(k1));
      var crossed, k2 := Crossover(parentA, parentB, k1 + 1);
      var split := PickIndex(rng(k1 + 1 + BIRD_COPY_DRAWS), HIDDEN_NODES);
      ghost var crossedBrain := CrossedBrain(Copy(parentA.brain), parentB.brain, split);
      assert crossed.brain == crossedBrain;
      var reset := crossed.(score := 0, timeAlive := 0);
      child, k' := MutateChild(reset, canvas, rng, k2 + COLOR_DRAWS);
      assert MutationOf(crossedBrain, child.brain);
      OffspringIntro(child, parentA, parentB, split, birds, canvas);
    }

    /**
     * `generateNewPopulation()`: 1999 children bred from the population, then
     * a copy of the best bird.
     */
    method GenerateNewPopulation(k: nat) returns (population: seq<Bird>, k': nat)
      requires Consistent() && bestBird.Some?
      ensures |population| == POPULATION_SIZE
      ensures population[POPULATION_SIZE - 1] == BirdCopy(bestBird.value, canvas)
      ensures forall i :: 0 <= i < POPULATION_SIZE - 1 ==> Offspring(population[i], birds, canvas)
    {
      population := [];
      var c: nat := k;
      while |population| < POPULATION_SIZE - 1
        invariant |population| <= POPULATION_SIZE - 1
        invariant forall i :: 0 <= i < |population| ==> Offspring(population[i], birds, canvas)
      {
        var child;
        child, c := Breed(c);
        population := population + [child];
      }
      population := population + [BirdCopy(bestBird.value, canvas)];
      k' := c + BIRD_COPY_DRAWS;
    }

    /**
     * `calculateFitness()`: every bird's fitness becomes its share of the
     * total score, the population is sorted by descending fitness, and the
     * fittest bird becomes the best bird when it scored more than it. The
     * sort is stable, so the first bird is the earliest of the fittest.
     */
    method CalculateFitness()
      requires Consistent() && 0 < TotalScore(birds)
      modifies this
      ensures Consistent() && bestBird.Some?
      ensures pipes == old(pipes) && generation == old(generation) && timeout == old(timeout) && drawn == old(drawn)
      ensures var scored := WithFitness(old(birds), TotalScore(old(birds)));
        && multiset(birds) == multiset(scored) && SortedDesc(birds)
        && (forall v :: OfFitness(birds, v) == OfFitness(scored, v))
        && FirstFittest(scored, birds[0])
        && var best := Resolved(old(bestBird), scored);
           && bestBird.value == (if best.score < birds[0].score then birds[0] else best)
           && (bestBird.value == best || (best.score < bestBird.value.score && FirstFittest(scored, bestBird.value)))
      ensures old(bestBird).Some? ==> old(bestBird).value.score <= bestBird.value.score
    {
      var total := TotalScore(birds);
      var scored := birds;
      var i := 0;
      while i < |scored|
        invariant 0 <= i <= |scored| == |birds|
        invariant forall j :: 0 <= j < i ==> scored[j] == birds[j].(fitness := Raw(birds[j]) as real / total as real)
        invariant forall j :: i <= j < |scored| ==> scored[j] == birds[j]
      {
        scored := scored[i := scored[i].(fitness := Raw(scored[i]) as real / total as real)];
        i := i + 1;
      }
      assert scored == WithFitness(birds, total);
      assert forall j :: 0 <= j < |scored| ==> Sound(scored[j], canvas);
      var sorted := SortByFitness(scored);
      PermutedStaysSound(scored, sorted, canvas);
      ghost var _ := StableFirst(sorted, scored);
      var best := Resolved(bestBird, scored);
      birds := sorted;
      if best.score < sorted[0].score {
        bestBird := Some(sorted[0]);
      } else {
        bestBird := Some(best);
      }
    }

    /**
     * `nextGeneration()`: fitness, a bred population ending with the copy of
     * the best bird, three fresh pipes, and the generation counter moves on.
     * Every child comes from the population that just finished; the best bird
     * is the previous one, or the fittest bird of that population when it
     * scored more.
     */
    method NextGeneration()
      requires Consistent() && 0 < TotalScore(birds)
      modifies this
      ensures Consistent() && BredFrom(old(birds), old(bestBird))
      ensures generation == old(generation) + 1 && timeout == old(timeout)
      ensures old(bestBird).Some? ==> bestBird.Some? && old(bestBird).value.score <= bestBird.value.score
    {
      ghost var prev, prevBest := birds, bestBird;
      ghost var scored := WithFitness(birds, TotalScore(birds));
      CalculateFitness();
      ghost var before := Resolved(prevBest, scored);
      assert FirstFittest(scored, birds[0]) && bestBird.value == (if before.score < birds[0].score then birds[0] else before);
      Repopulate(scored);
    }

    /**
     * The breeding half of `nextGeneration()`, once fitness is computed: the
     * new population, bred from a population with the same birds as
     * `scored`, three fresh pipes, and the generation counter moves on.
     */
    method Repopulate(ghost scored: seq<Bird>)
      requires Consistent() && bestBird.Some? && multiset(birds) == multiset(scored)
      modifies this
      ensures Consistent() && bestBird == old(bestBird)
      ensures generation == old(generation) + 1 && timeout == old(timeout)
      ensures birds[POPULATION_SIZE - 1] == BirdCopy(bestBird.value, canvas)
      ensures forall i :: 0 <= i < POPULATION_SIZE - 1 ==> Offspring(birds[i], scored, canvas)
      ensures |pipes| == 3 && 3 <= drawn
      ensures forall i :: 0 <= i < 3 ==> pipes[i] == NewPipe(canvas, canvas.width + i * PIPE_SPACING, 0, rng(drawn - 3 + i))
    {
      var population, k := GenerateNewPopulation(drawn);
      BredAmong(population, birds, scored, canvas);
      var generated, k' := GeneratePipes(canvas, rng, k);
      birds := population;
      pipes := generated;
      drawn := k';
      generation := generation + 1;
    }

    /** Every bird of the population is dead. */
    predicate AllDead()
      reads this
    {
      forall i :: 0 <= i < |birds| ==> birds[i].isDead
    }

    /** Every bird has lived at least one tick, as after the bird loop of `update`. */
    ghost predicate Aged()
      reads this
    {
      forall i :: 0 <= i < |birds| ==> 1 <= birds[i].timeAlive
    }

    /** `checkAllDead()`: when every bird is dead, a new timeout from the current generation, then the next generation. */
    method CheckAllDead()
      requires Consistent() && Aged()
      modifies this
      ensures Consistent()
      ensures old(AllDead()) ==> generation == old(generation) + 1 && timeout == NextTimeout(old(generation))
      ensures old(AllDead()) ==> BredFrom(old(birds), old(bestBird))
      ensures old(bestBird).Some? ==> bestBird.Some? && old(bestBird).value.score <= bestBird.value.score
      ensures !old(AllDead()) ==> birds == old(birds) && generation == old(generation) && timeout == old(timeout)
      ensures !old(AllDead()) ==> pipes == old(pipes) && drawn == old(drawn) && bestBird == old(bestBird)
    {
      if AllDead() {
        TotalPositive(birds);
        timeout := NextTimeout(generation);
        NextGeneration();
      }
    }

    /** `checkTimeout()`: when the timeout has run out, a new timeout from the current generation, then the next generation. */
    method CheckTimeout()
      requires Consistent() && (timeout <= 0 ==> Aged())
      modifies this
      ensures Consistent()
      ensures old(timeout) <= 0 ==> generation == old(generation) + 1 && timeout == NextTimeout(old(generation))
      ensures old(timeout) <= 0 ==> BredFrom(old(birds), old(bestBird))
      ensures old(bestBird).Some? ==> bestBird.Some? && old(bestBird).value.score <= bestBird.value.score
      ensures 0 < old(timeout) ==> birds == old(birds) && generation == old(generation) && timeout == old(timeout)
      ensures 0 < old(timeout) ==> pipes == old(pipes) && drawn == old(drawn) && bestBird == old(bestBird)
    {
      if timeout <= 0 {
        TotalPositive(birds);
        timeout := NextTimeout(generation);
        NextGeneration();
      }
    }

    /**
     * `update()`: move the pipes (collisions, scores, perhaps a new pipe),
     * then let every bird think and move, count the timeout down, and turn
     * the generation over when every bird is dead or the timeout has run out.
     * `crashed` stands for the TypeError `think` raises when no pipe is ahead
     * of a bird: the tick stops there, with the birds before it moved.
     * `tickedPipes` and `ticked` are the pipes and birds after the moving
     * half, the state the checks look at.
     */
    method Update() returns (crashed: bool, ghost tickedPipes: seq<Pipe>, ghost ticked: seq<Bird>)
      requires Valid()
      modifies this
      ensures Consistent()
      ensures PipesStepped(old(pipes), tickedPipes, canvas, rng, old(drawn))
      ensures BirdsTicked(AfterPipes(old(birds), tickedPipes[..|old(pipes)|], tickedPipes, canvas), tickedPipes, ticked,
                          canvas, sigmoid, crashed)
      ensures generation == old(generation) ==>
        && birds == ticked && pipes == tickedPipes && bestBird == old(bestBird)
        && drawn == old(drawn) + |tickedPipes| - |old(pipes)|
        && timeout == old(timeout) - (if crashed then 0 else 1)
      ensures generation != old(generation) ==>
        && !crashed && generation == old(generation) + 1 && timeout == NextTimeout(old(generation))
        && BredFrom(ticked, old(bestBird))
      ensures !crashed ==>
        (generation != old(generation) <==> old(timeout) == 1 || forall i :: 0 <= i < |ticked| ==> ticked[i].isDead)
      ensures old(bestBird).Some? ==> bestBird.Some? && old(bestBird).value.score <= bestBird.value.score
      ensures !crashed ==> Valid()
      ensures |ticked| == |old(birds)| && forall i :: 0 <= i < |ticked| ==> Follows(old(birds)[i], ticked[i])
      ensures !crashed ==> forall i :: 0 <= i < |ticked| ==> 1 <= ticked[i].timeAlive
    {
      crashed := Advance();
      tickedPipes, ticked := pipes, birds;
      if !crashed {
        Settle();
      }
    }

    /**
     * The closing half of `update()`, after every bird has had its turn:
     * the timeout counts down, then `checkAllDead()` and `checkTimeout()`.
     * At most one of them turns the generation over, and one does exactly
     * when every bird is dead or the timeout reaches 0.
     */
    method Settle()
      requires Consistent() && Aged() && 1 <= timeout
      modifies this
      ensures Valid()
      ensures generation == old(generation) ==>
        && birds == old(birds) && pipes == old(pipes) && bestBird == old(bestBird)
        && drawn == old(drawn) && timeout == old(timeout) - 1
        && exists i :: 0 <= i < |birds| && !birds[i].isDead
      ensures generation != old(generation) ==>
        && generation == old(generation) + 1 && timeout == NextTimeout(old(generation))
        && BredFrom(old(birds), old(bestBird))
      ensures generation != old(generation) <==> old(timeout) == 1 || old(AllDead())
      ensures old(bestBird).Some? ==> bestBird.Some? && old(bestBird).value.score <= bestBird.value.score
    {
      timeout := timeout - 1;
      CheckAllDead();
      CheckTimeout();
    }

    /**
     * The moving half of `update()`: `updatePipes`, then every bird's turn
     * against the new pipes. Generation, timeout and best bird stay.
     */
    method Advance() returns (crashed: bool)
      requires Consistent()
      modifies this
      ensures Consistent()
      ensures generation == old(generation) && timeout == old(timeout) && bestBird == old(bestBird)
      ensures PipesStepped(old(pipes), pipes, canvas, rng, old(drawn)) && drawn == old(drawn) + |pipes| - |old(pipes)|
      ensures BirdsTicked(AfterPipes(old(birds), pipes[..|old(pipes)|], pipes, canvas), pipes, birds, canvas, sigmoid, crashed)
      ensures |birds| == |old(birds)| && forall i :: 0 <= i < |birds| ==> Follows(old(birds)[i], birds[i])
      ensures !crashed ==> Aged()
    {
      var pipes', moved, k' := UpdatePipes(pipes, birds, canvas, rng, drawn);
      assert moved == AfterPipes(birds, pipes'[..|pipes|], pipes', canvas);
      var ticked;
      ticked, crashed := TickBirds(moved, pipes', canvas, sigmoid);
      FollowsChain(birds, moved, ticked);
      pipes, birds, drawn := pipes', ticked, k';
    }
  }

  /**
   * The population after the pipe step of `update()`: each bird is killed
   * by any moved pipe it hits and scored against the pipes after the step;
   * it follows from where it was and stays sound.
   */
  function AfterPipes(birds: seq<Bird>, moved: seq<Pipe>, pipes: seq<Pipe>, canvas: Canvas): (r: seq<Bird>)
    ensures |r| == |birds|
    ensures forall j :: 0 <= j < |birds| ==>
      r[j] == birds[j].(isDead := birds[j].isDead || HitsAny(moved, birds[j], canvas),
                        score := birds[j].score + PassingCount(pipes, birds[j].x))
    ensures forall j :: 0 <= j < |birds| ==> Follows(birds[j], r[j])
    ensures (forall j :: 0 <= j < |birds| ==> Sound(birds[j], canvas)) ==> forall j :: 0 <= j < |birds| ==> Sound(r[j], canvas)
  {
    seq(|birds|, j requires 0 <= j < |birds| =>
      birds[j].(isDead := birds[j].isDead || HitsAny(moved, birds[j], canvas),
                score := birds[j].score + PassingCount(pipes, birds[j].x)))
  }

  /**
   * The bird loop of `update()` took `stepped` to `ticked`: every bird took
   * its `TickBird` turn, or, on a crash, the birds before the first one with
   * no pipe ahead did and the rest are as they were.
   */
  ghost predicate BirdsTicked(stepped: seq<Bird>, pipes: seq<Pipe>, ticked: seq<Bird>, canvas: Canvas,
                              sigmoid: real -> real, crashed: bool)
  {
    && canvas.Valid() && (forall j :: 0 <= j < |stepped| ==> Sound(stepped[j], canvas))
    && |ticked| == |stepped|
    && (!crashed ==> forall j :: 0 <= j < |stepped| ==> TickBird(stepped[j], pipes, canvas, sigmoid) == Some(ticked[j]))
    && (crashed ==> exists c ::
         && 0 <= c < |stepped| && ClosestPipe(pipes, stepped[c].x).None?
         && (forall j :: 0 <= j < c ==> TickBird(stepped[j], pipes, canvas, sigmoid) == Some(ticked[j]))
         && (forall j :: c <= j < |stepped| ==> ticked[j] == stepped[j]))
  }

  /** One bird's turn in `update()`: `think`, then `update`. None when no pipe is ahead of it. */
  function TickBird(b: Bird, pipes: seq<Pipe>, canvas: Canvas, sigmoid: real -> real): (r: Option<Bird>)
    requires canvas.Valid() && HasBrain(b) && Sound(b, canvas)
    ensures r.None? <==> ClosestPipe(pipes, b.x).None?
    ensures r.Some? ==> Follows(b, r.value) && Sound(r.value, canvas) && 1 <= r.value.timeAlive
  {
    match Think(b, pipes, canvas, sigmoid)
    case None => None
    case Some(thought) =>
      TickStep(b, thought, canvas);
      Some(Updated(thought, canvas))
  }

  /**
   * The bird loop of `update()`: every bird, dead or alive, takes its turn,
   * in order. When a bird has no pipe ahead the loop stops with `crashed`,
   * the birds before it moved and the rest as they were.
   */
  method TickBirds(birds: seq<Bird>, pipes: seq<Pipe>, canvas: Canvas, sigmoid: real -> real)
    returns (ticked: seq<Bird>, crashed: bool)
    requires canvas.Valid() && forall j :: 0 <= j < |birds| ==> HasBrain(birds[j]) && Sound(birds[j], canvas)
    ensures |ticked| == |birds|
    ensures forall j :: 0 <= j < |birds| ==> Follows(birds[j], ticked[j]) && Sound(ticked[j], canvas)
    ensures !crashed ==> forall j :: 0 <= j < |birds| ==>
      TickBird(birds[j], pipes, canvas, sigmoid) == Some(ticked[j]) && 1 <= ticked[j].timeAlive
    ensures crashed <==> exists j :: 0 <= j < |birds| && ClosestPipe(pipes, birds[j].x).None?
    ensures BirdsTicked(birds, pipes, ticked, canvas, sigmoid, crashed)
  {
    ticked := birds;
    var i := 0;
    while i < |ticked|
      invariant 0 <= i <= |ticked| == |birds|
      invariant forall j :: 0 <= j < |ticked| ==> Follows(birds[j], ticked[j]) && Sound(ticked[j], canvas)
      invariant forall j :: 0 <= j < i ==>
        TickBird(birds[j], pipes, canvas, sigmoid) == Some(ticked[j]) && 1 <= ticked[j].timeAlive
      invariant forall j :: i <= j < |ticked| ==> ticked[j] == birds[j]
    {
      var turn := TickBird(ticked[i], pipes, canvas, sigmoid);
      if turn.None? {
        assert ClosestPipe(pipes, birds[i].x).None?;
        return ticked, true;
      }
      ticked := ticked[i := turn.value];
      i := i + 1;
    }
    crashed := false;
  }

  /** One bird's `think` then `update`: it follows from where it was, stays sound and has lived a tick. */
  lemma TickStep(b: Bird, thought: Bird, canvas: Canvas)
    requires Sound(b, canvas) && HasBrain(thought) && thought.brain.SameWeights(b.brain)
    requires thought == b.(vy := thought.vy, brain := thought.brain)
    ensures var b' := Updated(thought, canvas);
      Follows(b, b') && Sound(b', canvas) && 1 <= b'.timeAlive
  {
  }

  lemma FollowsChain(a: seq<Bird>, b: seq<Bird>, c: seq<Bird>)
    requires |a| == |b| == |c|
    requires forall j :: 0 <= j < |a| ==> Follows(a[j], b[j])
    requires forall j :: 0 <= j < |b| ==> Follows(b[j], c[j])
    ensures forall j :: 0 <= j < |a| ==> Follows(a[j], c[j])
  {
  }
}
