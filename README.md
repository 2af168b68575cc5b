# Flappy-bird neuroevolution, modelled in Dafny

`game.js` is a browser game. A population of 2000 birds learns to fly
through pipes. Each bird is steered by a small 5-8-1 neural network, and
each network is bred by a genetic algorithm. This project models the engine
under the canvas drawing and proves its rules:

- **matrix.dfy**, module `Matrices`. The dense matrix class.
  - The datatype `Mat` is a snapshot of one matrix.
  - The static operations `fromArray` and `multiply`, and `toArray`, are functions on `Mat`.
  - The class `Matrix` reassigns its `data` in place for `randomize`, `add` and `map`, and has `copy`.
- **network.dfy**, module `Networks`. The three-layer network as a value.
  - Construction, `predict` (including the activation cache it fills in), `copy` and `mutate`.
  - `mutate` has a specification function `Mutated` and a looping method `Mutate` proved equal to it.
- **world.dfy**, module `World`. The bird and pipe rules.
  - Birds: motion, flapping, dying, copying and the `think` decision.
  - Pipes: pipe creation, motion, collision, off-screen test and scoring.
  - The static pipe routines, as methods with loops.
- **fitness.dfy**, module `Fitness`. The population statistics: fitness shares, the sort by descending fitness, and the timeout rule.
- **genetic.dfy**, module `Genetic`. The `GeneticAlgorithm` class.
  - Selection, crossover, breeding and the fitness step.
  - The generation turnover, the two checks and the per-tick `update`.

`Math.random()` is replaced by an injected generator `rng: nat -> real`, and
every value it returns is assumed to lie in [0, 1). Each state carries a
cursor that counts the calls made so far. Every operation spends draws in
the order and number game.js does, including draws whose values are
thrown away:

| operation | draws |
|---|---|
| a new network | 57 |
| `Bird.copy()` (a new bird, then a new network for its brain copy) | 114 |
| `randomColor()` | 3 |
| a pipe | 1 |
| a tournament | 5 |
| a crossover split | 1 |
| each entry `mutate` looks at | 1, or 2 when it mutates |

`sigmoid` is a parameter of type `real -> real`. Numbers are exact reals.

`bestBird` is an `Option<Bird>`. At construction the source stores a live
reference to the first bird of generation 1. `None` stands for that
reference until the first `calculateFitness` resolves it to that bird's
current value (`Genetic.Resolved`).

## Model

| member | source | states |
|---|---|---|
| Draws.PickIndex | game.js:477-479 | `Math.floor(r * n)` for r in [0,1) is a valid index below n |
| Matrices.Zero | game.js:312-318 | a new matrix is rows by cols and filled with zeros |
| Matrices.RandomFill | game.js:320-322 | `randomize` keeps the shape and puts every entry in [-1, 0.4) |
| Matrices.ReduceIsDot | game.js:366 | the left fold `reduce` that computes each product entry equals the dot product of the row and the column |
| Matrices.ProductEntries | game.js:363-368 | every entry of the product's fold is the dot product of row i of `a` and column j of `b` |
| Matrices.Multiply | game.js:358-370 | undefined exactly when `a.cols != b.rows`; otherwise `a.rows` by `b.cols`, and entry (i,j) is the sum over k of a[i][k]·b[k][j] |
| Matrices.Plus | game.js:342-344 | same shape, and each entry is the sum of the two entries |
| Matrices.PlusScalar | game.js:346 | same shape, and n is added to every entry |
| Matrices.MapEntries | game.js:372-374 | same shape, and every entry is replaced by f of it |
| Matrices.FromArray | game.js:324-328 | `fromArray(xs)` is a column vector with `rows == |xs|`, `cols == 1`, and row i holding xs[i] |
| Matrices.ToArrayLength | game.js:330-332 | `toArray` returns rows·cols values |
| Matrices.ToArrayAt | game.js:330-332 | `toArray` is row-major: entry (i,j) sits at position i·cols + j |
| Matrices.ToArrayFromArray | game.js:324-332 | `toArray(fromArray(xs)) == xs` |
| Matrices.FlattenAt | game.js:331 | `flat()` of equal-length rows puts row i, column j at position i·c + j |
| Matrices.Matrix.constructor | game.js:312-318 | a new matrix object holds the zero matrix of its shape |
| Matrices.Matrix.Randomize | game.js:320-322 | the data becomes one draw per entry, row by row, scaled into [-1, 0.4); rows·cols draws are spent |
| Matrices.Matrix.Add | game.js:334-348 | a same-shape matrix gives the elementwise sum; a mismatched shape leaves `data` unchanged; the shape never changes |
| Matrices.Matrix.AddScalar | game.js:345-347 | a number is added to every entry; the shape never changes |
| Matrices.Matrix.Map | game.js:372-374 | every entry becomes f of it; the shape never changes |
| Matrices.Matrix.Copy | game.js:376-380 | a fresh matrix object with the same shape and entries |
| Networks.NewNetwork | game.js:165-181 | the four matrices have the shapes the topology fixes, every weight and bias is in [-1, 0.4), and no activations are cached |
| Networks.Layer | game.js:185-188 | one layer has one output per row of its weight matrix |
| Networks.Predict | game.js:183-194 | a result exactly when the input has `inputNodes` values; the weights are untouched and only the cache changes |
| Networks.HiddenIsLayer | game.js:184-188 | the hidden column `predict` computes is sigmoid(W_ih·x + b_h), entry by entry |
| Networks.PredictIsForward | game.js:183-194 | `predict(x)` returns exactly `outputNodes` values, equal to sigmoid(W_ho·sigmoid(W_ih·x + b_h) + b_o) |
| Networks.ToArrayOfColumn | game.js:193 | a one-column matrix flattens to its column |
| Networks.PredictIgnoresCache | game.js:183-194 | the cached activations never feed back: the same weights give the same output |
| Networks.Copy | game.js:196-208 | a copy has the same topology, weights and biases, and an empty cache |
| Networks.CopyPredictsAlike | game.js:196-208 | a copy predicts exactly what its original predicts |
| Networks.MutateRowNear | game.js:211-217 | one row through `map(mutate)`: each entry is kept or moved by a delta in [-0.05, 0.05); between one and two draws per entry |
| Networks.MutateRowsNear | game.js:218-221 | the same for every row of a matrix, with the shape kept |
| Networks.MutateMatNear | game.js:218-221 | `map(mutate)` keeps a matrix's declared shape, and each entry is kept or moved by a delta in [-0.05, 0.05) |
| Networks.MutatedNear | game.js:210-222 | `mutate(rate)` keeps all four shapes, the topology and the cache; each entry is kept or shifted by a delta in [-0.05, 0.05) |
| Networks.MutateRowZero | game.js:212-213 | at rate 0 no draw is below the rate, so a row is unchanged |
| Networks.MutateRowsZero | game.js:212-213 | at rate 0 every row of a matrix is unchanged |
| Networks.MutatedZero | game.js:210-222 | `mutate(0)` changes nothing |
| Networks.MutateEntries | game.js:373 | the loop over one row's entries of `map(mutate)` computes exactly the specification `MutateRow`, draws included |
| Networks.MutateMatrix | game.js:372-374 | the loop over the rows of `map(mutate)` computes exactly the specification `MutateMat`, draws included |
| Networks.Mutate | game.js:210-222 | `mutate(rate)` computes exactly `Mutated`: weights_ih, weights_ho, bias_h, bias_o in that order |
| World.NewBird | game.js:13-27 | a new bird sits a third of the way across and half way down, at rest (speed 0), alive, with no score, no time alive and no fitness |
| World.RandomBird | game.js:13-27 | `new Bird()` has a 5-8-1 brain and starts alive with nothing scored |
| World.Updated | game.js:44-54 | out of bounds, the bird goes to the floor line, stops and dies; in bounds it ages one tick, its speed grows by the weight and it falls; a dead bird is updated like any other |
| World.NewBirdFirstUpdate | game.js:44-54 | on a valid canvas a new bird is in bounds, so its first update ages it |
| World.DeadBirdKeepsAging | game.js:44-54 | two bare `update()` calls, without the `think` that comes first in a game tick, take a dead bird on the floor line back to the same place, one tick older |
| World.Flapped | game.js:64-66 | `flap` lowers the vertical speed by 10 and changes nothing else |
| World.Died | game.js:68-70 | `die` marks the bird dead and changes nothing else |
| World.BirdCopy | game.js:72-76 | `copy` is `new Bird` with a copy of the brain: the same weights and an empty activation cache; the position (a third across, half way down), the speed, score, time alive, fitness and dead flag start afresh |
| World.NewPipe | game.js:80-87 | the gap's top edge is in [150, 300), and top + 200 + bottom equals the canvas height |
| World.PipeUpdated | game.js:89-91 | a pipe moves 10 pixels left and nothing else changes |
| World.AfterCollision | game.js:99-108 | the bird ends up dead exactly when it already was or the pipe overlaps it outside the gap; nothing else changes |
| World.OffScreenIgnored | game.js:110-112 | `isOffScreen` (the right edge is past the left border): such a pipe stays off screen as it moves, `think` looks past it for any bird on the canvas, and `updateScore` gives nothing for it |
| World.RemoveOffScreenPipes | game.js:144-146 | the result holds exactly the pipes that are not off screen, and is the list itself when no pipe is off screen |
| World.RemoveOffScreenAppend | game.js:144-146 | `filter` works pipe by pipe: filtering `a + b` gives the kept pipes of `a` followed by those of `b`, so order and repeats are kept |
| World.RemoveOffScreenOne | game.js:144-146 | a single pipe is kept exactly when it is not off screen |
| World.ClosestPipe | game.js:30 | the first pipe whose right edge is past the bird, or none when every pipe is behind it |
| World.Sensors | game.js:31-37 | the five network inputs of `think` |
| World.Think | game.js:29-42 | a result exactly when some pipe is ahead; only the speed and the activation cache change; the speed either stays or drops by 10 |
| World.ThinkDecision | game.js:38-41 | the bird flaps exactly when the network's formula puts its one output above 0.5 |
| World.GeneratePipes | game.js:114-120 | three pipes at width, width + 300 and width + 600, one draw each |
| World.MovePipes | game.js:123 | every pipe moves 10 pixels left, in order |
| World.CheckCollision | game.js:136-142 | each bird is dead exactly when it already was or some pipe collides with it; nothing else about it changes |
| World.AddNewPipe | game.js:148-152 | a pipe is appended at the right edge exactly when the last pipe is more than 300 pixels from it; otherwise nothing changes and no draw is spent |
| World.PassingCountSnoc | game.js:154-162 | appending a pipe adds its own contribution to a bird's score count |
| World.UpdateScore | game.js:154-162 | every bird, dead or alive, gains one point for each pipe it is strictly inside horizontally |
| World.UpdatePipes | game.js:122-130 | the pipe list never shrinks (the filtered list is discarded); the moved pipes stay in order, possibly followed by one new pipe, and one draw is spent for it; birds die on collisions and score on the final pipe list |
| Fitness.WithFitness | game.js:439-441 | each bird's fitness becomes (score + timeAlive) / totalScore |
| Fitness.SumWithFitness | game.js:436-441 | the assigned fitness values sum to the total over the divisor |
| Fitness.FitnessSumsToOne | game.js:436-441 | with a positive total, the fitness values sum to 1 |
| Fitness.FitnessInUnitRange | game.js:436-441 | each fitness lies in [0, 1] |
| Fitness.RawAtMostTotal | game.js:436-439 | no bird's score + timeAlive exceeds the total |
| Fitness.TotalPositive | game.js:436-439 | once every bird has lived a tick, the total is at least the population size |
| Fitness.SortByFitness | game.js:442 | the sort returns the same birds, as a permutation, ordered by descending fitness; it is stable: for every fitness value, the birds with that value keep their order |
| Fitness.Insert | game.js:442 | inserting a bird adds exactly that bird to the multiset and one to the length |
| Fitness.InsertAtMost | game.js:442 | inserting a bird no fitter than x keeps every bird no fitter than x |
| Fitness.InsertSorted | game.js:442 | inserting into a descending sequence keeps it descending |
| Fitness.InsertStable | game.js:442 | inserting a bird puts it after every bird of its own fitness already there, so equal birds keep their order |
| Fitness.OfFitnessSnoc | game.js:442 | appending a bird to a sequence appends it to the birds of its own fitness |
| Fitness.OfFitnessBelow | game.js:442 | a sequence of birds all below a fitness has no bird of that fitness |
| Fitness.FittestFirst | game.js:442-446 | after the sort the first bird is one of the sorted birds and none of them is fitter |
| Fitness.FirstOf | game.js:442 | the first bird of a given fitness is the first bird in the order of the birds of that fitness |
| Fitness.StableFirst | game.js:442-446 | after the stable sort the first bird is the earliest, in the original order, of the fittest birds: every bird before it is strictly less fit |
| Fitness.NextTimeout | game.js:416 | `Math.max(generation * 500, 3000)` is at least 3000 and at least generation·500, and is one of the two |
| Genetic.CrossedBrain | game.js:465-472 | the crossed brain keeps the network's shapes |
| Genetic.OffspringAmong | game.js:449-463 | being bred from a population does not depend on its order |
| Genetic.OffspringIntro | game.js:449-463 | a new bird whose brain mutates a crossover of two population members is their offspring |
| Genetic.MutatedChild | game.js:454-460 | a reset child keeps its new-bird state through `mutate(0.2)`, and its brain is a mutation of the crossed brain |
| Genetic.MutateChild | game.js:457-460 | `child.brain.mutate(0.2)` computes exactly `Mutated`, and the child stays a new bird whose brain is a mutation of the old one |
| Genetic.BredAmong | game.js:449-463 | a bred population is bred from any reordering of its parents, and all its birds are sound |
| Genetic.PermutedStaysSound | game.js:442 | reordering the population keeps every bird sound |
| Genetic.NewBirdSound | game.js:13-27 | a bird in the starting position is in bounds on a valid canvas |
| Genetic.Resolved | game.js:443-446 | the stored best bird, or the live first bird of generation 1 |
| Genetic.SelectParentRandom | game.js:497-499 | `selectParentRandom` returns a bird of the population, picked by one draw |
| Genetic.GeneticAlgorithm.constructor | game.js:387-395 | 2000 birds (for each, three colour draws, then a random brain), three pipes spaced by the pipe spacing from the last three draws, generation 1, a timeout of 1000, and the state invariant |
| Genetic.GeneticAlgorithm.SelectParentTournament | game.js:474-484 | the winner is one of the 5 draws, no draw has a higher fitness, and every earlier draw is strictly less fit (the stable sort keeps the earliest of the fittest first) |
| Genetic.GeneticAlgorithm.Crossover | game.js:465-472 | split is in [0, 8); the child's weights_ih rows before split are A's and the rest are B's, so the last row is always B's; weights_ho and both biases are A's; the child starts afresh |
| Genetic.GeneticAlgorithm.Breed | game.js:451-460 | each child is a new bird whose brain is a mutation of a crossover of two birds of the population |
| Genetic.GeneticAlgorithm.GenerateNewPopulation | game.js:449-463 | exactly 2000 birds: 1999 offspring of the population, then `bestBird.copy()` (same weights, score 0, time alive 0, not mutated) |
| Genetic.GeneticAlgorithm.CalculateFitness | game.js:435-447 | the population becomes its fitness shares, stably sorted by descending fitness, so the first bird is the earliest of the fittest; the best bird is replaced only by a strictly higher score, so its score never decreases |
| Genetic.GeneticAlgorithm.NextGeneration | game.js:428-433 | the fitness step, then 1999 offspring of the scored population and the elite copy, then three fresh pipes from the last three draws; generation + 1; the best bird is exactly the earliest of the fittest scored birds when that bird scored strictly more than the previous best, and the previous best otherwise, so its score never decreases and the elite copy is fixed |
| Genetic.GeneticAlgorithm.Repopulate | game.js:430-432 | the new population (1999 offspring of the scored birds, then the copy of the best bird) and three fresh pipes replace the old ones, and the generation moves on; the best bird stays |
| Genetic.GeneticAlgorithm.CheckAllDead | game.js:414-419 | when every bird is dead, the timeout is computed from the current generation, then the full `nextGeneration` state follows (offspring of the scored population, elite copy, fresh pipes, and the exact best-bird rule: the earliest of the fittest replaces the previous best exactly when it scored strictly more); the best bird's score never decreases; otherwise nothing changes |
| Genetic.GeneticAlgorithm.CheckTimeout | game.js:421-426 | when the timeout has run out, the timeout is computed from the current generation, then the full `nextGeneration` state follows, with the exact best-bird rule and hence the exact elite bird; the best bird's score never decreases; otherwise nothing changes |
| Genetic.GeneticAlgorithm.Update | game.js:397-406 | one tick: the pipes become exactly `updatePipes`' result and every bird its `think`-then-`update` turn after the pipe step; without a turnover that is the new state, with the timeout one lower; a turnover happens exactly when every bird is then dead or the timeout reaches 0, and it leaves the full `nextGeneration` state bred from the ticked birds (including the exact best-bird rule), with the timeout from the old generation; the best bird's score never decreases; the invariant holds and, without a crash, the timeout stays positive; a missing pipe ahead crashes the tick |
| Genetic.GeneticAlgorithm.Advance | game.js:398-402 | the pipes become exactly `updatePipes`' result (moved pipes, perhaps one new pipe, one draw for it); every bird takes its `think`-then-`update` turn after the pipe step, or, on a crash, the birds before the first one with no pipe ahead do; the invariant holds and every bird follows from where it was |
| Genetic.GeneticAlgorithm.Settle | game.js:403-405 | the timeout counts down, then the two checks: a turnover happens exactly when the timeout reaches 0 or every bird is dead, at most once, and leaves the `nextGeneration` state with the exact best-bird rule; otherwise only the timeout changes and some bird is alive; the best bird's score never decreases |
| Genetic.TickBirds | game.js:399-402 | every bird, dead or alive, thinks and then updates, in order; the loop crashes exactly when some bird has no pipe ahead, and then the birds before the first such bird have had their turn and the rest are unchanged |
| Genetic.TickBird | game.js:399-402 | one bird's think then update: none exactly when no pipe is ahead; otherwise the bird follows from where it was, stays sound and has lived a tick |
| Genetic.AfterPipes | game.js:122-130 | the pipe step only kills and scores: each bird dies on a collision with a moved pipe and scores against the final pipes, follows from where it was and stays sound |
| Genetic.TickStep | game.js:399-402 | one bird's think and update keep its column and weights, never lower its score or its age, keep it dead if dead, and leave it having lived a tick |
| Genetic.FollowsChain | game.js:398-402 | the per-bird step relation composes across the pipe step and the bird loop |

## Left out

- The canvas, the DOM and drawing are not modelled: `draw`, `drawPipes`, `drawScore`, `drawLayer`, `drawConnections`, `randomColor`'s colour string, `gameLoop` and `requestAnimationFrame`. They are output only. Only the three draws `randomColor` spends are kept.
- The canvas size is a parameter. `Canvas.Valid` assumes a width above 0 and a height of at least 40, so that a new bird starts inside the band `update` lets it live in. The page fixes the size, and its markup is not part of this model.
- `Math.random()` is an injected generator, assumed to return values in [0, 1). `sigmoid` (game.js:307-309) is a parameter, because `Math.exp` has no model over reals.
- Floating point is not modelled. All arithmetic is over exact reals, so the rounding of the left fold in `multiply` is not captured; over reals it equals the dot product.
- `Matrix.subtract` (game.js:350-356) is not modelled, and neither are `selectParentRoulette`, `selectParentStochasticUniversalSampling` and `selectParentRank` (game.js:486-523). Nothing calls them.
- `learningRate` is not modelled. Only `copy` reads it, and nothing uses it.
- Object identity and aliasing are not modelled. Birds, networks and pipes are values. Crossover's shared row arrays are harmless, because `map` rebuilds every row before any further change. `bestBird` is a stored value once resolved.
- Genetic.GeneticAlgorithm.CalculateFitness: requires a positive total score, so the NaN fitness of an all-zero population is not modelled. `Update` proves that a turnover never meets a zero total, because every bird has lived a tick by then.
- Genetic.GeneticAlgorithm.GenerateNewPopulation: states that each child is bred from two birds of the population, not which two the draws pick, and does not state the final draw cursor.
- Genetic.GeneticAlgorithm.Breed: states the child as some mutated crossover of population birds, not the particular parents and split its draws choose.
- Genetic.GeneticAlgorithm.Update: a bird with no pipe ahead makes `think` throw a TypeError. The model returns `crashed` instead, stops the tick there as the source does, and does not model the exception leaving the game loop.
