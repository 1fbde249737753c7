/** Dense row-major matrices of reals (src/math/matrix.rs). `rows` and `cols`
    are stored beside `data`, as in the source; `Valid` says that they
    describe `data` exactly. A shape mismatch in `+`, `-` or `*` is a panic
    in the source and an `Err` here. */
module Matrices {
  import opened Base

  datatype Matrix = Matrix(rows: nat, cols: nat, data: seq<seq<real>>)

  const SizeMismatch := "Matrices are of incorrect sizes"
  const EmptyData := "from_data: index out of bounds (no rows)"

  /** `data` has `rows` rows of `cols` entries each. */
  predicate Valid(m: Matrix)
  {
    |m.data| == m.rows && forall i :: 0 <= i < |m.data| ==> |m.data[i]| == m.cols
  }

  predicate Shape(m: Matrix, r: nat, c: nat)
  {
    Valid(m) && m.rows == r && m.cols == c
  }

  predicate SameShape(a: Matrix, b: Matrix)
  {
    a.rows == b.rows && a.cols == b.cols
  }

  /** `Matrix::zeros`: an r-by-c matrix of zeros. */
  function Zeros(r: nat, c: nat): (m: Matrix)
    ensures Shape(m, r, c)
    ensures forall i, j :: 0 <= i < r && 0 <= j < c ==> m.data[i][j] == 0.0
  {
    Matrix(r, c, seq(r, i => seq(c, j => 0.0)))
  }

  /** `Matrix::default`: the empty 0-by-0 matrix. */
  function Default(): (m: Matrix)
    ensures Shape(m, 0, 0) && m.data == []
  {
    Matrix(0, 0, [])
  }

  /** `Matrix::from_data`: the row count is the number of rows given and the
      column count is the length of the FIRST row; with no rows the source
      panics while indexing `data[0]`. */
  function FromData(data: seq<seq<real>>): (r: Result<Matrix>)
    ensures r.Ok? <==> |data| > 0
    ensures r.Ok? ==> r.value.data == data && r.value.rows == |data| && r.value.cols == |data[0]|
    ensures r.Ok? ==> (Valid(r.value) <==> forall i :: 0 <= i < |data| ==> |data[i]| == |data[0]|)
  {
    if |data| == 0 then Err(EmptyData) else Ok(Matrix(|data|, |data[0]|, data))
  }

  /** Two well-formed matrices of one shape with the same entries are equal. */
  lemma {:induction false} SameEntries(x: Matrix, y: Matrix)
    requires Valid(x) && Valid(y) && SameShape(x, y)
    requires forall i, j :: 0 <= i < x.rows && 0 <= j < x.cols ==> x.data[i][j] == y.data[i][j]
    ensures x == y
  {
    forall i | 0 <= i < x.rows
      ensures x.data[i] == y.data[i]
    {
      assert |x.data[i]| == |y.data[i]|;
    }
  }

  /** Entry (i, j) of the transpose is entry (j, i) of `m`. */
  function Transposed(m: Matrix): Matrix
    requires Valid(m)
  {
    Matrix(m.cols, m.rows, seq(m.cols, i requires 0 <= i < m.cols =>
      seq(m.rows, j requires 0 <= j < m.rows => m.data[j][i])))
  }

  lemma {:induction false} TransposedShape(m: Matrix)
    requires Valid(m)
    ensures Shape(Transposed(m), m.cols, m.rows)
    ensures forall i, j :: 0 <= i < m.cols && 0 <= j < m.rows ==> Transposed(m).data[i][j] == m.data[j][i]
  {
  }

  /** Transposing twice gives the matrix back. */
  lemma {:induction false} TransposeInvolution(m: Matrix)
    requires Valid(m)
    ensures Valid(Transposed(m)) && Transposed(Transposed(m)) == m
  {
    TransposedShape(m);
    TransposedShape(Transposed(m));
    SameEntries(Transposed(Transposed(m)), m);
  }

  /** Writes entry (i, j), the source's `res.data[i][j] = v`. */
  function SetEntry(m: Matrix, i: nat, j: nat, v: real): (r: Matrix)
    requires Valid(m) && i < m.rows && j < m.cols
    ensures Shape(r, m.rows, m.cols)
    ensures r.data[i][j] == v
    ensures forall a, b :: 0 <= a < m.rows && 0 <= b < m.cols && (a != i || b != j) ==> r.data[a][b] == m.data[a][b]
  {
    m.(data := m.data[i := m.data[i][j := v]])
  }

  /** `Matrix::transpose`: fills a zero matrix of the swapped shape. */
  method Transpose(m: Matrix) returns (res: Matrix)
    requires Valid(m)
    ensures res == Transposed(m)
  {
    res := Zeros(m.cols, m.rows);
    for i := 0 to res.rows
      invariant Shape(res, m.cols, m.rows)
      invariant forall a, b :: 0 <= a < i && 0 <= b < m.rows ==> res.data[a][b] == m.data[b][a]
    {
      for j := 0 to res.cols
        invariant Shape(res, m.cols, m.rows)
        invariant forall a, b :: 0 <= a < i && 0 <= b < m.rows ==> res.data[a][b] == m.data[b][a]
        invariant forall b :: 0 <= b < j ==> res.data[i][b] == m.data[b][i]
      {
        res := SetEntry(res, i, j, m.data[j][i]);
      }
    }
    TransposedShape(m);
    SameEntries(res, Transposed(m));
  }

  /** Entry-wise image under `f`; `map` builds its result with `from_data`,
      so a matrix without rows makes it panic. */
  function Map(m: Matrix, f: real -> real): (r: Result<Matrix>)
    ensures r.Ok? <==> |m.data| > 0
    ensures r.Ok? && Valid(m) ==> Shape(r.value, m.rows, m.cols)
    ensures r.Ok? && Valid(m) ==> forall i, j :: 0 <= i < m.rows && 0 <= j < m.cols ==> r.value.data[i][j] == f(m.data[i][j])
  {
    FromData(seq(|m.data|, i requires 0 <= i < |m.data| =>
      seq(|m.data[i]|, j requires 0 <= j < |m.data[i]| => f(m.data[i][j]))))
  }

  /** Entry-wise sum, defined on equal shapes. */
  function Plus(a: Matrix, b: Matrix): (r: Result<Matrix>)
    requires Valid(a) && Valid(b)
    ensures r.Ok? <==> SameShape(a, b)
    ensures r.Ok? ==> Shape(r.value, a.rows, a.cols)
  {
    if !SameShape(a, b) then Err(SizeMismatch)
    else Ok(Matrix(a.rows, a.cols, seq(a.rows, i requires 0 <= i < a.rows =>
      seq(a.cols, j requires 0 <= j < a.cols => a.data[i][j] + b.data[i][j]))))
  }

  /** Entry-wise difference, defined on equal shapes. */
  function Minus(a: Matrix, b: Matrix): (r: Result<Matrix>)
    requires Valid(a) && Valid(b)
    ensures r.Ok? <==> SameShape(a, b)
    ensures r.Ok? ==> Shape(r.value, a.rows, a.cols)
  {
    if !SameShape(a, b) then Err(SizeMismatch)
    else Ok(Matrix(a.rows, a.cols, seq(a.rows, i requires 0 <= i < a.rows =>
      seq(a.cols, j requires 0 <= j < a.cols => a.data[i][j] - b.data[i][j]))))
  }

  /** The running sum of the source's innermost loop after k steps:
      the sum over t < k of a(i, t) * b(t, j). */
  function Dot(a: Matrix, b: Matrix, i: nat, j: nat, k: nat): real
    requires Valid(a) && Valid(b) && i < a.rows && j < b.cols && k <= a.cols && a.cols == b.rows
  {
    if k == 0 then 0.0 else Dot(a, b, i, j, k - 1) + a.data[i][k - 1] * b.data[k - 1][j]
  }

  /** The matrix product, defined when the inner dimensions agree. */
  function Product(a: Matrix, b: Matrix): (r: Result<Matrix>)
    requires Valid(a) && Valid(b)
    ensures r.Ok? <==> a.cols == b.rows
    ensures r.Ok? ==> Shape(r.value, a.rows, b.cols)
  {
    if a.cols != b.rows then Err(SizeMismatch)
    else Ok(Matrix(a.rows, b.cols, seq(a.rows, i requires 0 <= i < a.rows =>
      seq(b.cols, j requires 0 <= j < b.cols => Dot(a, b, i, j, a.cols)))))
  }

  /** For two row vectors u and v, u^T v is their outer product. */
  lemma {:induction false} OuterProduct(u: Matrix, v: Matrix)
    requires Valid(u) && Valid(v) && u.rows == 1 && v.rows == 1
    ensures Valid(Transposed(u)) && Product(Transposed(u), v).Ok?
    ensures forall i, j :: 0 <= i < u.cols && 0 <= j < v.cols ==>
      Product(Transposed(u), v).value.data[i][j] == u.data[0][i] * v.data[0][j]
  {
    TransposedShape(u);
    forall i, j | 0 <= i < u.cols && 0 <= j < v.cols
      ensures Product(Transposed(u), v).value.data[i][j] == u.data[0][i] * v.data[0][j]
    {
      assert Dot(Transposed(u), v, i, j, 1) == Transposed(u).data[i][0] * v.data[0][j];
    }
  }

  /** `impl Add for Matrix`. */
  method Add(a: Matrix, b: Matrix) returns (r: Result<Matrix>)
    requires Valid(a) && Valid(b)
    ensures r == Plus(a, b)
  {
    if a.rows != b.rows || a.cols != b.cols {
      return Err(SizeMismatch);
    }
    var res := Zeros(a.rows, a.cols);
    for i := 0 to a.rows
      invariant Shape(res, a.rows, a.cols)
      invariant forall x, y :: 0 <= x < i && 0 <= y < a.cols ==> res.data[x][y] == a.data[x][y] + b.data[x][y]
    {
      for j := 0 to a.cols
        invariant Shape(res, a.rows, a.cols)
        invariant forall x, y :: 0 <= x < i && 0 <= y < a.cols ==> res.data[x][y] == a.data[x][y] + b.data[x][y]
        invariant forall y :: 0 <= y < j ==> res.data[i][y] == a.data[i][y] + b.data[i][y]
      {
        res := SetEntry(res, i, j, a.data[i][j] + b.data[i][j]);
      }
    }
    SameEntries(res, Plus(a, b).value);
    r := Ok(res);
  }

  /** `impl Sub for Matrix`. */
  method Sub(a: Matrix, b: Matrix) returns (r: Result<Matrix>)
    requires Valid(a) && Valid(b)
    ensures r == Minus(a, b)
  {
    if a.rows != b.rows || a.cols != b.cols {
      return Err(SizeMismatch);
    }
    var res := Zeros(a.rows, a.cols);
    for i := 0 to a.rows
      invariant Shape(res, a.rows, a.cols)
      invariant forall x, y :: 0 <= x < i && 0 <= y < a.cols ==> res.data[x][y] == a.data[x][y] - b.data[x][y]
    {
      for j := 0 to a.cols
        invariant Shape(res, a.rows, a.cols)
        invariant forall x, y :: 0 <= x < i && 0 <= y < a.cols ==> res.data[x][y] == a.data[x][y] - b.data[x][y]
        invariant forall y :: 0 <= y < j ==> res.data[i][y] == a.data[i][y] - b.data[i][y]
      {
        res := SetEntry(res, i, j, a.data[i][j] - b.data[i][j]);
      }
    }
    SameEntries(res, Minus(a, b).value);
    r := Ok(res);
  }

  /** `impl Mul for Matrix`: the triple loop with a running `sum`. */
  method Mul(a: Matrix, b: Matrix) returns (r: Result<Matrix>)
    requires Valid(a) && Valid(b)
    ensures r == Product(a, b)
  {
    if a.cols != b.rows {
      return Err(SizeMismatch);
    }
    var res := Zeros(a.rows, b.cols);
    for i := 0 to res.rows
      invariant Shape(res, a.rows, b.cols)
      invariant forall x, y :: 0 <= x < i && 0 <= y < b.cols ==> res.data[x][y] == Dot(a, b, x, y, a.cols)
    {
      for j := 0 to res.cols
        invariant Shape(res, a.rows, b.cols)
        invariant forall x, y :: 0 <= x < i && 0 <= y < b.cols ==> res.data[x][y] == Dot(a, b, x, y, a.cols)
        invariant forall y :: 0 <= y < j ==> res.data[i][y] == Dot(a, b, i, y, a.cols)
      {
        var sum := 0.0;
        for k := 0 to a.cols
          invariant sum == Dot(a, b, i, j, k)
        {
          sum := sum + a.data[i][k] * b.data[k][j];
        }
        res := SetEntry(res, i, j, sum);
      }
    }
    SameEntries(res, Product(a, b).value);
    r := Ok(res);
  }
}
