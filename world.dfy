/**
 * The motion and scoring rules of game.js's Bird and Pipe classes. The canvas
 * size comes in as a `Canvas` value; drawing, colours and the DOM are not
 * modelled. Birds and pipes are values; the operations that change one bird
 * or one pipe in place return its new value, and the static Pipe operations
 * that walk the pipe and bird arrays are methods with loops returning the
 * new arrays.
 */
module World {
  import opened Options
  import opened Draws
  import opened Networks

  /** The width and height of the game canvas, in pixels. */
  datatype Canvas = Canvas(width: nat, height: nat) {
    /** A canvas on which a bird fits twice over vertically, so a new bird starts in bounds. */
    predicate Valid()
    {
      0 < width && 2 * BIRD_SIZE <= height
    }
  }

  const BIRD_SIZE: int := 20
  const BIRD_WEIGHT: int := 1
  const FLAP_IMPULSE: int := 10
  const PIPE_WIDTH: int := 20
  const PIPE_SPEED: int := 10
  const PIPE_GAP: int := 200
  const PIPE_SPACING: int := 300
  const INPUT_NODES: nat := 5
  const HIDDEN_NODES: nat := 8
  const OUTPUT_NODES: nat := 1

  // ----------------------------------------------------------------- birds

  datatype Bird = Bird(
    x: real,
    y: real,
    vy: int,
    isDead: bool,
    score: nat,
    timeAlive: nat,
    fitness: real,
    brain: Network)

  /** The brain every bird is built with: 5 inputs, 8 hidden units, 1 output. */
  predicate HasBrain(b: Bird)
  {
    b.brain.Valid() && b.brain.inputNodes == INPUT_NODES
    && b.brain.hiddenNodes == HIDDEN_NODES && b.brain.outputNodes == OUTPUT_NODES
  }

  /** `new Bird(color)` with a given brain: a third across, half way down, at rest, alive, nothing scored. */
  function NewBird(canvas: Canvas, brain: Network): (b: Bird)
    ensures b.x == canvas.width as real / 3.0 && b.y == canvas.height as real / 2.0 && b.vy == 0
    ensures b.score == 0 && b.timeAlive == 0 && !b.isDead && b.fitness == 0.0 && b.brain == brain
  {
    Bird(canvas.width as real / 3.0, canvas.height as real / 2.0, 0, false, 0, 0, 0.0, brain)
  }

  /** Draws `new Bird(color)` makes: its `new NeuralNetwork(5, 8, 1)`. */
  const BIRD_INIT_DRAWS: nat := InitDraws(INPUT_NODES, HIDDEN_NODES, OUTPUT_NODES)

  /** `new Bird(color)`: a new bird with a freshly randomized brain. */
  function RandomBird(canvas: Canvas, rng: nat -> real, k: nat): (b: Bird)
    requires Uniform(rng)
    ensures HasBrain(b) && b.score == 0 && b.timeAlive == 0 && !b.isDead
  {
    NewBird(canvas, NewNetwork(INPUT_NODES, HIDDEN_NODES, OUTPUT_NODES, rng, k))
  }

  /** The vertical band `update` accepts: neither below the floor line nor above the top. */
  predicate InBounds(b: Bird, canvas: Canvas)
  {
    0.0 <= b.y <= (canvas.height - BIRD_SIZE) as real
  }

  /**
   * `update()`: out of bounds, the bird is put on the floor line, stopped and
   * marked dead; in bounds it ages one tick and falls with gravity. A dead
   * bird is updated like any other.
   */
  function Updated(b: Bird, canvas: Canvas): (b': Bird)
    ensures b'.x == b.x && b'.score == b.score && b'.fitness == b.fitness && b'.brain == b.brain
    ensures InBounds(b, canvas) ==>
      (b'.timeAlive == b.timeAlive + 1 && b'.isDead == b.isDead
       && b'.vy == b.vy + BIRD_WEIGHT && b'.y == b.y + b'.vy as real)
    ensures !InBounds(b, canvas) ==>
      (b'.timeAlive == b.timeAlive && b'.isDead
       && b'.vy == 0 && b'.y == (canvas.height - BIRD_SIZE) as real)
  {
    if b.y > (canvas.height - BIRD_SIZE) as real || b.y < 0.0 then
      b.(y := (canvas.height - BIRD_SIZE) as real, vy := 0, isDead := true)
    else
      var vy := b.vy + BIRD_WEIGHT;
      b.(timeAlive := b.timeAlive + 1, vy := vy, y := b.y + vy as real)
  }

  /** A new bird starts in bounds, so its first update counts a tick of time alive. */
  lemma NewBirdFirstUpdate(canvas: Canvas, brain: Network)
    requires canvas.Valid()
    ensures Updated(NewBird(canvas, brain), canvas).timeAlive == 1
  {
  }

  /**
   * Two bare `update()` calls on a dead bird resting on the floor line: the
   * first finds it in bounds, ages it and lets it sink one pixel; the second
   * puts it back on the floor line. In a game tick `think` runs before each
   * `update` and may flap the bird, so this is about `update` alone.
   */
  lemma DeadBirdKeepsAging(b: Bird, canvas: Canvas)
    requires canvas.Valid() && b.isDead && b.vy == 0 && b.y == (canvas.height - BIRD_SIZE) as real
    ensures Updated(Updated(b, canvas), canvas).timeAlive == b.timeAlive + 1
    ensures Updated(Updated(b, canvas), canvas) == b.(timeAlive := b.timeAlive + 1)
  {
    var b1 := Updated(b, canvas);
    assert InBounds(b, canvas);
    assert b1.y == b.y + 1.0;
    assert !InBounds(b1, canvas);
  }

  /** `flap()`: an upward kick of 10 to the vertical speed. */
  function Flapped(b: Bird): (b': Bird)
    ensures b'.vy == b.vy - FLAP_IMPULSE && b' == b.(vy := b'.vy)
  {
    b.(vy := b.vy - FLAP_IMPULSE)
  }

  /** `die()`. */
  function Died(b: Bird): (b': Bird)
    ensures b'.isDead && b' == b.(isDead := true)
  {
    b.(isDead := true)
  }

  /**
   * `copy()`: `new Bird(this.color)` given a copy of this brain. Position,
   * speed, score, time alive, fitness and the dead flag all start afresh.
   */
  function BirdCopy(b: Bird, canvas: Canvas): (c: Bird)
    requires HasBrain(b)
    ensures HasBrain(c) && c.brain.SameWeights(b.brain)
    ensures c.score == 0 && c.timeAlive == 0 && !c.isDead && c.fitness == 0.0
    ensures c == NewBird(canvas, c.brain)
    ensures c.x == canvas.width as real / 3.0 && c.y == canvas.height as real / 2.0 && c.vy == 0
    ensures c.brain.hiddenActivations.None? && c.brain.outputActivations.None?
  {
    NewBird(canvas, Copy(b.brain))
  }

  /** Draws `copy()` makes: the new Bird's brain, then the brain copy's own constructor. */
  const BIRD_COPY_DRAWS: nat := 2 * BIRD_INIT_DRAWS

  // ----------------------------------------------------------------- pipes

  datatype Pipe = Pipe(x: int, y: int, top: int, bottom: int)

  /** `new Pipe(x, y)`: top edge of the gap at floor(r*150 + 150), and a 200 pixel gap above the bottom part. */
  function NewPipe(canvas: Canvas, x: int, y: int, r: real): (p: Pipe)
    requires 0.0 <= r < 1.0
    ensures p.x == x && p.y == y
    ensures 150 <= p.top < 300
    ensures p.top + PIPE_GAP + p.bottom == canvas.height
  {
    var top := (r * 150.0 + 150.0).Floor;
    Pipe(x, y, top, canvas.height - top - PIPE_GAP)
  }

  /** `pipe.update()`. */
  function PipeUpdated(p: Pipe): (p': Pipe)
    ensures p' == p.(x := p.x - PIPE_SPEED)
  {
    p.(x := p.x - PIPE_SPEED)
  }

  /** The condition of `pipe.isColliding(bird)`: horizontal overlap and outside the gap. */
  predicate Colliding(p: Pipe, b: Bird, canvas: Canvas)
  {
    && b.x < (p.x + PIPE_WIDTH) as real
    && b.x + BIRD_SIZE as real > p.x as real
    && (b.y < (p.y + p.top) as real || b.y + BIRD_SIZE as real > (canvas.height - p.bottom) as real)
  }

  /** `pipe.isColliding(bird)`: the bird dies on a collision and is unchanged otherwise. */
  function AfterCollision(p: Pipe, b: Bird, canvas: Canvas): (b': Bird)
    ensures b'.isDead <==> b.isDead || Colliding(p, b, canvas)
    ensures b' == b.(isDead := b'.isDead)
  {
    if Colliding(p, b, canvas) then Died(b) else b
  }

  /** `pipe.isOffScreen()`: the pipe has moved past the left edge. */
  predicate IsOffScreen(p: Pipe)
  {
    p.x + PIPE_WIDTH < 0
  }

  /**
   * An off-screen pipe stays off screen as it moves on, and it no longer
   * matters to a bird anywhere on the canvas: `think` looks past it and
   * `updateScore` gives nothing for it.
   */
  lemma OffScreenIgnored(p: Pipe, x: real)
    requires IsOffScreen(p) && 0.0 <= x
    ensures IsOffScreen(PipeUpdated(p))
    ensures (p.x + PIPE_WIDTH) as real <= x
    ensures PassingCount([p], x) == 0
  {
  }

  /** `Pipe.removeOffScreenPipes(pipes)`: the pipes still on screen, in order. Its caller throws the result away. */
  function RemoveOffScreenPipes(pipes: seq<Pipe>): (r: seq<Pipe>)
    ensures |r| <= |pipes|
    ensures forall p :: p in r <==> p in pipes && !IsOffScreen(p)
    ensures (forall i :: 0 <= i < |pipes| ==> !IsOffScreen(pipes[i])) ==> r == pipes
  {
    if pipes == [] then []
    else if IsOffScreen(pipes[0]) then RemoveOffScreenPipes(pipes[1..])
    else [pipes[0]] + RemoveOffScreenPipes(pipes[1..])
  }

  /**
   * `filter` works pipe by pipe: the pipes kept from `a + b` are those kept
   * from `a` followed by those kept from `b`, so order and repeats survive.
   */
  lemma {:induction false} RemoveOffScreenAppend(a: seq<Pipe>, b: seq<Pipe>)
    ensures RemoveOffScreenPipes(a + b) == RemoveOffScreenPipes(a) + RemoveOffScreenPipes(b)
  {
    if a != [] {
      var ab := a + b;
      var head := if IsOffScreen(a[0]) then [] else [a[0]];
      assert ab[0] == a[0] && ab[1..] == a[1..] + b;
      assert RemoveOffScreenPipes(ab) == head + RemoveOffScreenPipes(a[1..] + b);
      RemoveOffScreenAppend(a[1..], b);
      assert RemoveOffScreenPipes(a) == head + RemoveOffScreenPipes(a[1..]);
      ConcatAssoc(head, RemoveOffScreenPipes(a[1..]), RemoveOffScreenPipes(b));
    } else {
      assert a + b == b;
    }
  }

  lemma ConcatAssoc<T>(a: seq<T>, b: seq<T>, c: seq<T>)
    ensures a + (b + c) == (a + b) + c
  {
  }

  /** `filter` on a single pipe keeps it exactly when it is on screen. */
  lemma RemoveOffScreenOne(p: Pipe)
    ensures RemoveOffScreenPipes([p]) == if IsOffScreen(p) then [] else [p]
  {
    assert [p][1..] == [];
  }

  /** How many of `pipes` the horizontal position `x` lies strictly inside. */
  function PassingCount(pipes: seq<Pipe>, x: real): nat
  {
    if pipes == [] then 0
    else (if x > pipes[0].x as real && x < (pipes[0].x + PIPE_WIDTH) as real then 1 else 0)
         + PassingCount(pipes[1..], x)
  }

  /** `pipes.find(pipe => pipe.x + pipe.width > this.x)`: the first pipe not yet fully passed. */
  function ClosestPipe(pipes: seq<Pipe>, x: real): (r: Option<nat>)
    ensures r.Some? ==> r.value < |pipes| && (pipes[r.value].x + PIPE_WIDTH) as real > x
    ensures r.Some? ==> forall i :: 0 <= i < r.value ==> (pipes[i].x + PIPE_WIDTH) as real <= x
    ensures r.None? ==> forall i :: 0 <= i < |pipes| ==> (pipes[i].x + PIPE_WIDTH) as real <= x
  {
    if pipes == [] then None
    else if (pipes[0].x + PIPE_WIDTH) as real > x then Some(0)
    else match ClosestPipe(pipes[1..], x)
      case None => None
      case Some(i) => Some(i + 1)
  }

  /** The sensor vector `think` feeds the brain. */
  function Sensors(b: Bird, p: Pipe, canvas: Canvas): (s: seq<real>)
    requires canvas.Valid()
    ensures |s| == INPUT_NODES
  {
    var h := canvas.height as real;
    [b.y / h, p.top as real / h, p.bottom as real / h, p.x as real / canvas.width as real, b.vy as real / 10.0]
  }

  /**
   * `think(pipes)`: ask the brain about the closest pipe ahead and flap when
   * the first output exceeds 0.5. The brain keeps the activations it
   * computed. With no pipe ahead, `closestPipe.top` throws: None.
   */
  function Think(b: Bird, pipes: seq<Pipe>, canvas: Canvas, sigmoid: real -> real): (r: Option<Bird>)
    requires canvas.Valid() && HasBrain(b)
    ensures r.Some? <==> ClosestPipe(pipes, b.x).Some?
    ensures r.Some? ==> HasBrain(r.value) && r.value.brain.SameWeights(b.brain)
    ensures r.Some? ==> r.value == b.(vy := r.value.vy, brain := r.value.brain)
    ensures r.Some? ==> r.value.vy == b.vy || r.value.vy == b.vy - FLAP_IMPULSE
  {
    match ClosestPipe(pipes, b.x)
    case None => None
    case Some(i) =>
      var p := Predict(b.brain, Sensors(b, pipes[i], canvas), sigmoid).value;
      var b' := b.(brain := p.net);
      Some(if |p.output| > 0 && p.output[0] > 0.5 then Flapped(b') else b')
  }

  /** `think` flaps exactly when the network's formula puts its one output above 0.5. */
  lemma ThinkDecision(b: Bird, pipes: seq<Pipe>, canvas: Canvas, sigmoid: real -> real, i: nat)
    requires canvas.Valid() && HasBrain(b) && ClosestPipe(pipes, b.x) == Some(i)
    ensures Think(b, pipes, canvas, sigmoid).Some?
    ensures var net := b.brain;
      var out := Layer(net.weightsHO, net.biasO, Layer(net.weightsIH, net.biasH, Sensors(b, pipes[i], canvas), sigmoid), sigmoid);
      |out| == 1 &&
      (Think(b, pipes, canvas, sigmoid).value.vy == b.vy - FLAP_IMPULSE <==> out[0] > 0.5)
  {
    PredictIsForward(b.brain, Sensors(b, pipes[i], canvas), sigmoid);
  }

  // ---------------------------------------------- static Pipe operations

  /** `Pipe.generatePipes()`: three pipes at the right edge, 300 pixels apart, one draw each. */
  method GeneratePipes(canvas: Canvas, rng: nat -> real, k: nat) returns (pipes: seq<Pipe>, k': nat)
    requires Uniform(rng)
    ensures |pipes| == 3 && k' == k + 3
    ensures forall i :: 0 <= i < 3 ==> pipes[i] == NewPipe(canvas, canvas.width + i * PIPE_SPACING, 0, rng(k + i))
  {
    pipes := [];
    var i := 0;
    while i < 3
      invariant 0 <= i <= 3 && |pipes| == i
      invariant forall j :: 0 <= j < i ==> pipes[j] == NewPipe(canvas, canvas.width + j * PIPE_SPACING, 0, rng(k + j))
    {
      pipes := pipes + [NewPipe(canvas, canvas.width + i * PIPE_SPACING, 0, rng(k + i))];
      i := i + 1;
    }
    k' := k + 3;
  }

  /** `pipes.forEach(pipe => pipe.update())`: every pipe moves 10 pixels left. */
  method MovePipes(pipes: seq<Pipe>) returns (pipes': seq<Pipe>)
    ensures |pipes'| == |pipes|
    ensures forall i :: 0 <= i < |pipes| ==> pipes'[i] == pipes[i].(x := pipes[i].x - PIPE_SPEED)
  {
    pipes' := pipes;
    var i := 0;
    while i < |pipes|
      invariant 0 <= i <= |pipes| && |pipes'| == |pipes|
      invariant forall j :: 0 <= j < i ==> pipes'[j] == PipeUpdated(pipes[j])
      invariant forall j :: i <= j < |pipes| ==> pipes'[j] == pipes[j]
    {
      pipes' := pipes'[i := PipeUpdated(pipes'[i])];
      i := i + 1;
    }
  }

  /** Some pipe of `pipes` collides with `b`. */
  predicate HitsAny(pipes: seq<Pipe>, b: Bird, canvas: Canvas)
  {
    exists p :: p in pipes && Colliding(p, b, canvas)
  }

  /**
   * `Pipe.checkCollision(birds, pipes)`: every pipe tests every bird. A bird
   * ends up dead exactly when it already was or some pipe collides with it;
   * nothing else about it changes.
   */
  method CheckCollision(birds: seq<Bird>, pipes: seq<Pipe>, canvas: Canvas) returns (birds': seq<Bird>)
    ensures |birds'| == |birds|
    ensures forall i :: 0 <= i < |birds| ==>
      birds'[i] == birds[i].(isDead := birds[i].isDead || HitsAny(pipes, birds[i], canvas))
  {
    birds' := birds;
    var n := 0;
    while n < |pipes|
      invariant 0 <= n <= |pipes| && |birds'| == |birds|
      invariant forall i :: 0 <= i < |birds| ==>
        birds'[i] == birds[i].(isDead := birds[i].isDead || HitsAny(pipes[..n], birds[i], canvas))
    {
      var m := 0;
      while m < |birds|
        invariant 0 <= m <= |birds| && |birds'| == |birds|
        invariant forall i :: 0 <= i < m ==>
          birds'[i] == birds[i].(isDead := birds[i].isDead || HitsAny(pipes[..n + 1], birds[i], canvas))
        invariant forall i :: m <= i < |birds| ==>
          birds'[i] == birds[i].(isDead := birds[i].isDead || HitsAny(pipes[..n], birds[i], canvas))
      {
        assert pipes[..n + 1] == pipes[..n] + [pipes[n]];
        assert Colliding(pipes[n], birds'[m], canvas) == Colliding(pipes[n], birds[m], canvas);
        birds' := birds'[m := AfterCollision(pipes[n], birds'[m], canvas)];
        m := m + 1;
      }
      n := n + 1;
    }
    assert pipes[..n] == pipes;
  }

  /** `Pipe.addNewPipe(pipes)`: once the last pipe is 300 pixels in from the right edge, one more enters there (one draw). */
  method AddNewPipe(pipes: seq<Pipe>, canvas: Canvas, rng: nat -> real, k: nat) returns (pipes': seq<Pipe>, k': nat)
    requires |pipes| > 0 && Uniform(rng)
    ensures pipes[|pipes| - 1].x < canvas.width - PIPE_SPACING ==>
      pipes' == pipes + [NewPipe(canvas, canvas.width, 0, rng(k))] && k' == k + 1
    ensures pipes[|pipes| - 1].x >= canvas.width - PIPE_SPACING ==> pipes' == pipes && k' == k
  {
    if pipes[|pipes| - 1].x < canvas.width - PIPE_SPACING {
      pipes' := pipes + [NewPipe(canvas, canvas.width, 0, rng(k))];
      k' := k + 1;
    } else {
      pipes', k' := pipes, k;
    }
  }

  lemma PassingCountSnoc(pipes: seq<Pipe>, p: Pipe, x: real)
    ensures PassingCount(pipes + [p], x)
         == PassingCount(pipes, x) + (if x > p.x as real && x < (p.x + PIPE_WIDTH) as real then 1 else 0)
  {
    if pipes != [] {
      assert (pipes + [p])[1..] == pipes[1..] + [p];
      PassingCountSnoc(pipes[1..], p, x);
    }
  }

  /**
   * `Pipe.updateScore(birds, pipes)`: every pipe tests every bird, so a
   * bird's score grows by the number of pipes its x lies strictly inside,
   * dead or alive; nothing else about it changes.
   */
  method UpdateScore(birds: seq<Bird>, pipes: seq<Pipe>) returns (birds': seq<Bird>)
    ensures |birds'| == |birds|
    ensures forall i :: 0 <= i < |birds| ==>
      birds'[i] == birds[i].(score := birds[i].score + PassingCount(pipes, birds[i].x))
  {
    birds' := birds;
    var n := 0;
    while n < |pipes|
      invariant 0 <= n <= |pipes| && |birds'| == |birds|
      invariant forall i :: 0 <= i < |birds| ==>
        birds'[i] == birds[i].(score := birds[i].score + PassingCount(pipes[..n], birds[i].x))
    {
      var m := 0;
      while m < |birds|
        invariant 0 <= m <= |birds| && |birds'| == |birds|
        invariant forall i :: 0 <= i < m ==>
          birds'[i] == birds[i].(score := birds[i].score + PassingCount(pipes[..n + 1], birds[i].x))
        invariant forall i :: m <= i < |birds| ==>
          birds'[i] == birds[i].(score := birds[i].score + PassingCount(pipes[..n], birds[i].x))
      {
        assert pipes[..n + 1] == pipes[..n] + [pipes[n]];
        PassingCountSnoc(pipes[..n], pipes[n], birds[m].x);
        var b := birds'[m];
        if b.x > pipes[n].x as real && b.x < (pipes[n].x + PIPE_WIDTH) as real {
          birds' := birds'[m := b.(score := b.score + 1)];
        }
        m := m + 1;
      }
      n := n + 1;
    }
    assert pipes[..n] == pipes;
  }

  /**
   * The pipes after `updatePipes`: every pipe moved 10 pixels left, then one
   * new pipe, drawn at `k`, exactly when the last moved pipe is more than
   * 300 pixels in from the right edge.
   */
  ghost predicate PipesStepped(pipes: seq<Pipe>, pipes': seq<Pipe>, canvas: Canvas, rng: nat -> real, k: nat)
  {
    && 0 < |pipes| && Uniform(rng)
    && (|pipes'| == |pipes| || |pipes'| == |pipes| + 1)
    && (forall i :: 0 <= i < |pipes| ==> pipes'[i] == PipeUpdated(pipes[i]))
    && (|pipes'| == |pipes| + 1 <==> pipes[|pipes| - 1].x - PIPE_SPEED < canvas.width - PIPE_SPACING)
    && (|pipes'| == |pipes| + 1 ==> pipes'[|pipes|] == NewPipe(canvas, canvas.width, 0, rng(k)))
  }

  /**
   * `Pipe.updatePipes(pipes, birds)`: move, collide, filter (result
   * discarded), maybe add a pipe, score. The pipe list never shrinks: the
   * moved pipes are all still there, possibly followed by one new pipe.
   */
  method UpdatePipes(pipes: seq<Pipe>, birds: seq<Bird>, canvas: Canvas, rng: nat -> real, k: nat)
    returns (pipes': seq<Pipe>, birds': seq<Bird>, k': nat)
    requires |pipes| > 0 && Uniform(rng)
    ensures k' == k + |pipes'| - |pipes|
    ensures PipesStepped(pipes, pipes', canvas, rng, k)
    ensures |birds'| == |birds|
    ensures forall i :: 0 <= i < |birds| ==>
      birds'[i] == birds[i].(isDead := birds[i].isDead || HitsAny(pipes'[..|pipes|], birds[i], canvas),
                             score := birds[i].score + PassingCount(pipes', birds[i].x))
    ensures forall i :: 0 <= i < |birds| ==>
      birds'[i] == birds[i].(isDead := birds'[i].isDead, score := birds'[i].score)
      && birds[i].score <= birds'[i].score && (birds[i].isDead ==> birds'[i].isDead)
  {
    var moved := MovePipes(pipes);
    var checked := CheckCollision(birds, moved, canvas);
    var _ := RemoveOffScreenPipes(moved);
    pipes', k' := AddNewPipe(moved, canvas, rng, k);
    birds' := UpdateScore(checked, pipes');
    assert pipes'[..|pipes|] == moved;
  }
}
