/**
 * The dense matrix of game.js (class Matrix): `rows` nested arrays of `cols`
 * numbers each. `Mat` is the value a Matrix holds at one moment; the static
 * operations (`fromArray`, `multiply`) and `toArray` build fresh values and
 * are functions on `Mat`. The class `Matrix` keeps the operations that
 * reassign `this.data` in place (`randomize`, `add`, `map`) and `copy`.
 */
module Matrices {
  import opened Options
  import opened Draws

  /** A snapshot of a Matrix: its declared shape and its rows. */
  datatype Mat = Mat(rows: nat, cols: nat, data: seq<seq<real>>) {
    /** The shape invariant: `rows` rows, each of exactly `cols` entries. */
    predicate Valid()
    {
      |data| == rows && forall i :: 0 <= i < |data| ==> |data[i]| == cols
    }

    predicate SameShape(other: Mat)
    {
      rows == other.rows && cols == other.cols
    }
  }

  /** The zero-filled matrix `new Matrix(rows, cols)` starts out as. */
  function Zero(rows: nat, cols: nat): (m: Mat)
    ensures m.Valid() && m.rows == rows && m.cols == cols
    ensures forall i, j :: 0 <= i < rows && 0 <= j < cols ==> m.data[i][j] == 0.0
  {
    Mat(rows, cols, seq(rows, _ => seq(cols, _ => 0.0)))
  }

  /** The values `randomize` stores: entry (i, j) is the (i*cols + j)-th draw from cursor `k`, scaled by 1.4 and shifted by -1. */
  function RandomFill(rows: nat, cols: nat, rng: nat -> real, k: nat): (m: Mat)
    requires Uniform(rng)
    ensures m.Valid() && m.rows == rows && m.cols == cols
    ensures forall i, j :: 0 <= i < rows && 0 <= j < cols ==> -1.0 <= m.data[i][j] < 0.4
  {
    Mat(rows, cols, seq(rows, i requires 0 <= i < rows =>
      seq(cols, j requires 0 <= j < cols => rng(k + i * cols + j) * 1.4 - 1.0)))
  }

  // ---------------------------------------------------------------- products

  /** The textbook dot product: the sum over k of u[k]*v[k]. */
  function Dot(u: seq<real>, v: seq<real>): real
    requires |u| == |v|
  {
    if u == [] then 0.0 else u[0] * v[0] + Dot(u[1..], v[1..])
  }

  /** The left fold `u.reduce((acc, el, k) => acc + el * v[k], acc)` that `multiply` computes each entry with. */
  function Reduce(u: seq<real>, v: seq<real>, acc: real): real
    requires |u| == |v|
  {
    if u == [] then acc else Reduce(u[1..], v[1..], acc + u[0] * v[0])
  }

  /** Over exact reals the source's left-to-right fold is the dot product. */
  lemma {:induction false} ReduceIsDot(u: seq<real>, v: seq<real>, acc: real)
    requires |u| == |v|
    ensures Reduce(u, v, acc) == acc + Dot(u, v)
  {
    if u != [] {
      ReduceIsDot(u[1..], v[1..], acc + u[0] * v[0]);
    }
  }

  /** Column j of a matrix: the values `b.data[k][j]` the fold of `multiply` reads. */
  function Column(m: Mat, j: nat): (c: seq<real>)
    requires m.Valid() && j < m.cols
    ensures |c| == m.rows
    ensures forall k :: 0 <= k < m.rows ==> c[k] == m.data[k][j]
  {
    seq(m.rows, k requires 0 <= k < m.rows => m.data[k][j])
  }

  lemma ProductEntries(a: Mat, b: Mat)
    requires a.Valid() && b.Valid() && a.cols == b.rows
    ensures forall i, j :: 0 <= i < a.rows && 0 <= j < b.cols ==>
      Reduce(a.data[i], Column(b, j), 0.0) == Dot(a.data[i], Column(b, j))
  {
    forall i, j | 0 <= i < a.rows && 0 <= j < b.cols
      ensures Reduce(a.data[i], Column(b, j), 0.0) == Dot(a.data[i], Column(b, j))
    {
      ReduceIsDot(a.data[i], Column(b, j), 0.0);
    }
  }

  /**
   * `Matrix.multiply(a, b)`: undefined (None) exactly when `a.cols != b.rows`;
   * otherwise an `a.rows` by `b.cols` matrix whose entry (i, j) is the dot
   * product of row i of `a` with column j of `b`.
   */
  function Multiply(a: Mat, b: Mat): (r: Option<Mat>)
    requires a.Valid() && b.Valid()
    ensures r.Some? <==> a.cols == b.rows
    ensures r.Some? ==> r.value.Valid() && r.value.rows == a.rows && r.value.cols == b.cols
    ensures r.Some? ==> forall i, j :: 0 <= i < a.rows && 0 <= j < b.cols ==>
      r.value.data[i][j] == Dot(a.data[i], Column(b, j))
  {
    if a.cols != b.rows then None
    else
      ProductEntries(a, b);
      Some(Mat(a.rows, b.cols, seq(a.rows, i requires 0 <= i < a.rows =>
        seq(b.cols, j requires 0 <= j < b.cols => Reduce(a.data[i], Column(b, j), 0.0)))))
  }

  // ------------------------------------------------------- elementwise maps

  /** The new data of `a.add(b)` for a matrix `b` of the same shape. */
  function Plus(a: Mat, b: Mat): (r: Mat)
    requires a.Valid() && b.Valid() && a.SameShape(b)
    ensures r.Valid() && r.SameShape(a)
    ensures forall i, j :: 0 <= i < a.rows && 0 <= j < a.cols ==> r.data[i][j] == a.data[i][j] + b.data[i][j]
  {
    Mat(a.rows, a.cols, seq(a.rows, i requires 0 <= i < a.rows =>
      seq(a.cols, j requires 0 <= j < a.cols => a.data[i][j] + b.data[i][j])))
  }

  /** The new data of `a.add(n)` for a number `n`. */
  function PlusScalar(a: Mat, n: real): (r: Mat)
    requires a.Valid()
    ensures r.Valid() && r.SameShape(a)
    ensures forall i, j :: 0 <= i < a.rows && 0 <= j < a.cols ==> r.data[i][j] == a.data[i][j] + n
  {
    Mat(a.rows, a.cols, seq(a.rows, i requires 0 <= i < a.rows =>
      seq(a.cols, j requires 0 <= j < a.cols => a.data[i][j] + n)))
  }

  /** The new data of `a.map(f)`. */
  function MapEntries(a: Mat, f: real -> real): (r: Mat)
    requires a.Valid()
    ensures r.Valid() && r.SameShape(a)
    ensures forall i, j :: 0 <= i < a.rows && 0 <= j < a.cols ==> r.data[i][j] == f(a.data[i][j])
  {
    Mat(a.rows, a.cols, seq(a.rows, i requires 0 <= i < a.rows =>
      seq(a.cols, j requires 0 <= j < a.cols => f(a.data[i][j]))))
  }

  // ------------------------------------------------ fromArray and toArray

  /** `Matrix.fromArray(xs)`: the column vector holding `xs`. */
  function FromArray(xs: seq<real>): (m: Mat)
    ensures m.Valid() && m.rows == |xs| && m.cols == 1
    ensures forall i :: 0 <= i < |xs| ==> m.data[i][0] == xs[i]
  {
    Mat(|xs|, 1, seq(|xs|, i requires 0 <= i < |xs| => [xs[i]]))
  }

  /** `Array.prototype.flat()` one level deep. */
  function Flatten(g: seq<seq<real>>): seq<real>
  {
    if g == [] then [] else g[0] + Flatten(g[1..])
  }

  /** `m.toArray()`: the entries in row-major order. */
  function ToArray(m: Mat): seq<real>
  {
    Flatten(m.data)
  }

  lemma {:induction false} MulMono(a: nat, b: nat, c: nat)
    requires a <= b
    ensures a * c <= b * c
  {
    if a < b {
      MulMono(a, b - 1, c);
      assert b * c == (b - 1) * c + c;
    }
  }

  lemma MulStep(n: nat, c: nat, i: nat, j: nat)
    requires i < n && j < c
    ensures i * c + j < n * c
  {
    MulMono(i + 1, n, c);
    assert (i + 1) * c == i * c + c;
  }

  lemma {:induction false} FlattenLength(g: seq<seq<real>>, c: nat)
    requires forall i :: 0 <= i < |g| ==> |g[i]| == c
    ensures |Flatten(g)| == |g| * c
  {
    if g != [] {
      FlattenLength(g[1..], c);
      assert |Flatten(g)| == c + (|g| - 1) * c;
    }
  }

  lemma {:induction false} FlattenAt(g: seq<seq<real>>, c: nat, i: nat, j: nat)
    requires forall i :: 0 <= i < |g| ==> |g[i]| == c
    requires i < |g| && j < c
    ensures i * c + j < |Flatten(g)| && Flatten(g)[i * c + j] == g[i][j]
  {
    FlattenLength(g, c);
    MulStep(|g|, c, i, j);
    if i > 0 {
      FlattenAt(g[1..], c, i - 1, j);
      assert i * c + j == c + ((i - 1) * c + j);
    }
  }

  /** `toArray` yields `rows*cols` values. */
  lemma ToArrayLength(m: Mat)
    requires m.Valid()
    ensures |ToArray(m)| == m.rows * m.cols
  {
    FlattenLength(m.data, m.cols);
  }

  /** `toArray` lists the entries row by row: entry (i, j) sits at position i*cols + j. */
  lemma ToArrayAt(m: Mat, i: nat, j: nat)
    requires m.Valid() && i < m.rows && j < m.cols
    ensures i * m.cols + j < |ToArray(m)| && ToArray(m)[i * m.cols + j] == m.data[i][j]
  {
    FlattenAt(m.data, m.cols, i, j);
  }

  lemma {:induction false} FlattenSingletons(g: seq<seq<real>>, xs: seq<real>)
    requires |g| == |xs| && forall i :: 0 <= i < |g| ==> g[i] == [xs[i]]
    ensures Flatten(g) == xs
  {
    if g != [] {
      FlattenSingletons(g[1..], xs[1..]);
    }
  }

  /** `toArray` undoes `fromArray`. */
  lemma ToArrayFromArray(xs: seq<real>)
    ensures ToArray(FromArray(xs)) == xs
  {
    FlattenSingletons(FromArray(xs).data, xs);
  }

  /** The only column of `fromArray(xs)` is `xs`. */
  lemma ColumnFromArray(xs: seq<real>)
    ensures Column(FromArray(xs), 0) == xs
  {
  }

  // ------------------------------------------------------------ the class

  /** A Matrix object; `add`, `map` and `randomize` reassign its `data`. */
  class Matrix {
    var rows: nat
    var cols: nat
    var data: seq<seq<real>>

    function Value(): Mat
      reads this
    {
      Mat(rows, cols, data)
    }

    predicate Valid()
      reads this
    {
      Value().Valid()
    }

    /** `new Matrix(rows, cols)`: zero-filled. */
    constructor (rows: nat, cols: nat)
      ensures Valid() && Value() == Zero(rows, cols)
    {
      this.rows := rows;
      this.cols := cols;
      this.data := Zero(rows, cols).data;
    }

    /** `randomize()`: one draw per entry, row by row; each entry lands in [-1, 0.4). */
    method Randomize(rng: nat -> real, k: nat) returns (k': nat)
      requires Valid() && Uniform(rng)
      modifies this
      ensures Valid() && rows == old(rows) && cols == old(cols)
      ensures Value() == RandomFill(rows, cols, rng, k)
      ensures k' == k + rows * cols
    {
      data := RandomFill(rows, cols, rng, k).data;
      k' := k + rows * cols;
    }

    /**
     * `add(n)` for a Matrix `n`: elementwise sum when the shapes agree;
     * otherwise the source only logs an error, and `data` stays as it was.
     */
    method Add(n: Matrix)
      requires Valid() && n.Valid()
      modifies this
      ensures Valid() && rows == old(rows) && cols == old(cols)
      ensures old(Value().SameShape(n.Value())) ==> Value() == Plus(old(Value()), old(n.Value()))
      ensures !old(Value().SameShape(n.Value())) ==> data == old(data)
    {
      if rows != n.rows || cols != n.cols {
        return;
      }
      data := Plus(Value(), n.Value()).data;
    }

    /** `add(n)` for a number `n`: added to every entry. */
    method AddScalar(n: real)
      requires Valid()
      modifies this
      ensures Valid() && rows == old(rows) && cols == old(cols)
      ensures Value() == PlusScalar(old(Value()), n)
    {
      data := PlusScalar(Value(), n).data;
    }

    /** `map(fn)`: every entry replaced by `fn` of it. */
    method Map(f: real -> real)
      requires Valid()
      modifies this
      ensures Valid() && rows == old(rows) && cols == old(cols)
      ensures Value() == MapEntries(old(Value()), f)
    {
      data := MapEntries(Value(), f).data;
    }

    /** `copy()`: a fresh Matrix with the same shape and entries. */
    method Copy() returns (m: Matrix)
      requires Valid()
      ensures fresh(m) && m.Valid() && m.Value() == Value()
    {
      m := new Matrix(rows, cols);
      m.data := data;
    }
  }
}
