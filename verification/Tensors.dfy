/** Tensors over the integers, row major, and the bilinear maps of the recorded operations. */
module Tensors {
  import opened Powers

  type Vector = seq<int>

  function Sum(n: nat, f: int -> int): int { if n == 0 then 0 else Sum(n - 1, f) + f(n - 1) }

  lemma {:induction false} SumSame(n: nat, f: int -> int, g: int -> int)
    requires forall i :: 0 <= i < n ==> f(i) == g(i)
    ensures Sum(n, f) == Sum(n, g)
  {
    if n > 0 {
      SumSame(n - 1, f, g);
    }
  }

  lemma {:induction false} SumPlus(n: nat, f: int -> int, g: int -> int)
    ensures Sum(n, i => f(i) + g(i)) == Sum(n, f) + Sum(n, g)
  {
    if n > 0 {
      SumPlus(n - 1, f, g);
    }
  }

  lemma {:induction false} SumTimes(n: nat, f: int -> int, c: int)
    ensures Sum(n, i => f(i) * c) == Sum(n, f) * c
  {
    if n > 0 {
      SumTimes(n - 1, f, c);
      Distribute(Sum(n - 1, f), f(n - 1), c);
    }
  }

  lemma Distribute(a: int, b: int, c: int)
    ensures (a + b) * c == a * c + b * c
  {
  }

  lemma {:induction false} SumZero(n: nat, f: int -> int)
    requires forall i :: 0 <= i < n ==> f(i) == 0
    ensures Sum(n, f) == 0
  {
    if n > 0 {
      SumZero(n - 1, f);
    }
  }

  function RowSum(f: (int, int) -> int, n: nat, i: int): int { Sum(n, j => f(i, j)) }

  function ColumnSum(f: (int, int) -> int, m: nat, j: int): int { Sum(m, i => f(i, j)) }

  /** The order of summation does not matter. */
  lemma {:induction false} SumExchange(m: nat, n: nat, f: (int, int) -> int)
    ensures Sum(m, i => RowSum(f, n, i)) == Sum(n, j => ColumnSum(f, m, j))
  {
    if m == 0 {
      SumZero(n, j => ColumnSum(f, 0, j));
    } else {
      SumExchange(m - 1, n, f);
      var g, h := j => ColumnSum(f, m - 1, j), j => f(m - 1, j);
      SumPlus(n, g, h);
      SumSame(n, j => ColumnSum(f, m, j), i => g(i) + h(i));
      assert RowSum(f, n, m - 1) == Sum(n, h);
      var rows := i => RowSum(f, n, i);
      assert Sum(m, rows) == Sum(m - 1, rows) + rows(m - 1);
    }
  }

  function At(v: Vector, i: int): int { if 0 <= i < |v| then v[i] else 0 }

  function Make(n: nat, f: int -> int): (v: Vector)
    ensures |v| == n && forall i :: 0 <= i < n ==> v[i] == f(i)
  {
    seq(n, i requires 0 <= i < n => f(i))
  }

  function Add(a: Vector, b: Vector): (v: Vector)
    requires |a| == |b|
    ensures |v| == |a|
  {
    Make(|a|, i => At(a, i) + At(b, i))
  }

  function Zeros(n: nat): Vector { Make(n, i => 0) }

  function Times(a: Vector, b: Vector): Vector
    requires |a| == |b|
  {
    Make(|a|, i => At(a, i) * At(b, i))
  }

  function Dot(a: Vector, b: Vector): int
    requires |a| == |b|
  {
    Sum(|a|, i => At(a, i) * At(b, i))
  }

  lemma DotAdd(a: Vector, b: Vector, c: Vector)
    requires |a| == |b| == |c|
    ensures Dot(Add(a, b), c) == Dot(a, c) + Dot(b, c)
  {
    SumPlus(|a|, i => At(a, i) * At(c, i), i => At(b, i) * At(c, i));
    forall i | 0 <= i < |a| ensures At(Add(a, b), i) * At(c, i) == At(a, i) * At(c, i) + At(b, i) * At(c, i) {
      Distribute(At(a, i), At(b, i), At(c, i));
    }
    SumSame(|a|, i => At(Add(a, b), i) * At(c, i),
            i => (i => At(a, i) * At(c, i))(i) + (i => At(b, i) * At(c, i))(i));
  }

  lemma DotCommutes(a: Vector, b: Vector)
    requires |a| == |b|
    ensures Dot(a, b) == Dot(b, a)
  {
    SumSame(|a|, i => At(a, i) * At(b, i), i => At(b, i) * At(a, i));
  }

  lemma DotZeros(a: Vector)
    ensures Dot(Zeros(|a|), a) == 0 && Dot(a, Zeros(|a|)) == 0
  {
    SumZero(|a|, i => At(Zeros(|a|), i) * At(a, i));
    DotCommutes(Zeros(|a|), a);
  }

  /** Elementwise multiplication is its own transpose. */
  lemma TimesDual(a: Vector, b: Vector, c: Vector)
    requires |a| == |b| == |c|
    ensures Dot(Times(a, b), c) == Dot(a, Times(c, b))
  {
    forall i | 0 <= i < |a| ensures At(Times(a, b), i) * At(c, i) == At(a, i) * At(Times(c, b), i) {
      Reassociate(At(a, i), At(b, i), At(c, i));
    }
    SumSame(|a|, i => At(Times(a, b), i) * At(c, i), i => At(a, i) * At(Times(c, b), i));
  }

  lemma Reassociate(a: int, b: int, c: int)
    ensures (a * b) * c == a * (c * b) && (a * b) * c == b * (c * a) && (a * b) * c == (a * c) * b
  {
  }

  /** The sum of all elements, and the expansion that is its transpose. */
  function Total(a: Vector): Vector { [Sum(|a|, i => At(a, i))] }

  function Expand(g: Vector, n: nat): Vector { Make(n, i => At(g, 0)) }

  lemma TotalDual(a: Vector, g: Vector)
    requires |g| == 1
    ensures Dot(Total(a), g) == Dot(a, Expand(g, |a|))
  {
    var c := g[0];
    SumTimes(|a|, i => At(a, i), c);
    SumSame(|a|, i => At(a, i) * At(Expand(g, |a|), i), i => (i => At(a, i))(i) * c);
    var f: int -> int := i => At(Total(a), i) * At(g, i);
    assert Sum(1, f) == Sum(0, f) + f(0);
  }

  /** Row i and column j of a row-major matrix with n columns. */
  function Cell(a: Vector, n: nat, i: int, j: int): int { At(a, i * n + j) }

  function Matrix(m: nat, n: nat, f: (int, int) -> int): (v: Vector)
    ensures |v| == m * n
  {
    NonNegative(m, n);
    if n == 0 then [] else Make(m * n, k => f(k / n, k % n))
  }

  lemma NonNegative(m: nat, n: nat)
    ensures m * n >= 0
  {
    MulMonotone(0, m, n);
  }

  lemma CellOfMatrix(m: nat, n: nat, f: (int, int) -> int, i: nat, j: nat)
    requires i < m && j < n
    ensures 0 <= i * n + j < m * n
    ensures Cell(Matrix(m, n, f), n, i, j) == f(i, j)
  {
    CellInside(m, n, i, j);
    CellParts(n, i, j);
  }

  lemma CellInside(m: nat, n: nat, i: nat, j: nat)
    requires i < m && j < n
    ensures 0 <= i * n + j < m * n
  {
    NonNegative(i, n);
    NonNegative(m - i - 1, n);
    assert m * n == i * n + n + (m - i - 1) * n;
  }

  lemma CellParts(n: nat, i: nat, j: nat)
    requires j < n
    ensures (i * n + j) / n == i && (i * n + j) % n == j
  {
    DivModUnique(i * n + j, n, i, j);
  }

  /** The product of a rows x inner and an inner x columns matrix, either of them stored transposed. */
  function Left(a: Vector, rows: nat, inner: nat, transposed: bool, i: int, t: int): int {
    if transposed then Cell(a, rows, t, i) else Cell(a, inner, i, t)
  }

  function Right(b: Vector, inner: nat, columns: nat, transposed: bool, t: int, j: int): int {
    if transposed then Cell(b, inner, j, t) else Cell(b, columns, t, j)
  }

  function Inner(a: Vector, b: Vector, rows: nat, inner: nat, columns: nat, ta: bool, tb: bool, i: int, j: int): int {
    Sum(inner, t => Left(a, rows, inner, ta, i, t) * Right(b, inner, columns, tb, t, j))
  }

  function MatMul(a: Vector, b: Vector, rows: nat, inner: nat, columns: nat, ta: bool, tb: bool): (v: Vector)
    ensures |v| == rows * columns
  {
    Matrix(rows, columns, (i, j) => Inner(a, b, rows, inner, columns, ta, tb, i, j))
  }

  lemma {:induction false} SumSplit(p: nat, n: nat, f: int -> int)
    ensures Sum(p + n, f) == Sum(p, f) + Sum(n, j => f(p + j))
  {
    if n > 0 {
      SumSplit(p, n - 1, f);
      var g := j => f(p + j);
      assert Sum(n, g) == Sum(n - 1, g) + g(n - 1);
    }
  }

  function DotRow(a: Vector, b: Vector, n: nat, i: int): int { Sum(n, j => Cell(a, n, i, j) * Cell(b, n, i, j)) }

  function Pairs(a: Vector, b: Vector): int -> int { i => At(a, i) * At(b, i) }

  lemma {:induction false} RowsOf(a: Vector, b: Vector, m: nat, n: nat)
    ensures m * n >= 0
    ensures Sum(m * n, Pairs(a, b)) == Sum(m, i => DotRow(a, b, n, i))
  {
    NonNegative(m, n);
    if m > 0 {
      RowsOf(a, b, m - 1, n);
      NonNegative(m - 1, n);
      MulStep(m - 1, n);
      LastRow(a, b, m - 1, n, (m - 1) * n);
      var rows := i => DotRow(a, b, n, i);
      assert Sum(m, rows) == Sum(m - 1, rows) + rows(m - 1);
      hide Pairs, DotRow;
    }
  }

  lemma LastRow(a: Vector, b: Vector, row: nat, n: nat, p: nat)
    requires p == row * n
    ensures Sum(p + n, Pairs(a, b)) == Sum(p, Pairs(a, b)) + DotRow(a, b, n, row)
  {
    var f := Pairs(a, b);
    SumSplit(p, n, f);
    SumSame(n, j => f(p + j), j => Cell(a, n, row, j) * Cell(b, n, row, j));
  }

  /** The inner product of two matrices, row by row. */
  lemma DotMatrix(a: Vector, b: Vector, m: nat, n: nat)
    requires |a| == |b| == m * n
    ensures Dot(a, b) == Sum(m, i => DotRow(a, b, n, i))
  {
    RowsOf(a, b, m, n);
    SumSame(m * n, i => At(a, i) * At(b, i), Pairs(a, b));
  }

  /** One product of three entries, l in row i and column t, r in row t and column j, g in row i and column j. */
  function Term(l: Vector, r: Vector, g: Vector, k: nat, n: nat, i: int, j: int, t: int): int {
    Cell(l, k, i, t) * Cell(r, n, t, j) * Cell(g, n, i, j)
  }

  function TermsByInner(l: Vector, r: Vector, g: Vector, k: nat, n: nat, i: int, j: int): int {
    Sum(k, t => Term(l, r, g, k, n, i, j, t))
  }

  function TermsByColumn(l: Vector, r: Vector, g: Vector, k: nat, n: nat, i: int, t: int): int {
    Sum(n, j => Term(l, r, g, k, n, i, j, t))
  }

  function TermsByRow(l: Vector, r: Vector, g: Vector, m: nat, k: nat, n: nat, t: int, j: int): int {
    Sum(m, i => Term(l, r, g, k, n, i, j, t))
  }

  /** Row i of the product against g. */
  lemma ProductRow(l: Vector, r: Vector, g: Vector, m: nat, k: nat, n: nat, i: nat)
    requires i < m
    ensures DotRow(MatMul(l, r, m, k, n, false, false), g, n, i) == Sum(n, j => TermsByInner(l, r, g, k, n, i, j))
  {
    var p := MatMul(l, r, m, k, n, false, false);
    forall j | 0 <= j < n ensures Cell(p, n, i, j) * Cell(g, n, i, j) == TermsByInner(l, r, g, k, n, i, j) {
      CellOfMatrix(m, n, (i, j) => Inner(l, r, m, k, n, false, false, i, j), i, j);
      var f := t => Cell(l, k, i, t) * Cell(r, n, t, j);
      SumSame(k, t => Left(l, m, k, false, i, t) * Right(r, k, n, false, t, j), f);
      SumTimes(k, f, Cell(g, n, i, j));
      SumSame(k, t => f(t) * Cell(g, n, i, j), t => Term(l, r, g, k, n, i, j, t));
    }
    SumSame(n, j => Cell(p, n, i, j) * Cell(g, n, i, j), j => TermsByInner(l, r, g, k, n, i, j));
  }

  /** Row i of l against the product of g and the transpose of r. */
  lemma LeftRow(l: Vector, r: Vector, g: Vector, m: nat, k: nat, n: nat, i: nat)
    requires i < m
    ensures DotRow(l, MatMul(g, r, m, n, k, false, true), k, i) == Sum(k, t => TermsByColumn(l, r, g, k, n, i, t))
  {
    var q := MatMul(g, r, m, n, k, false, true);
    forall t | 0 <= t < k ensures Cell(l, k, i, t) * Cell(q, k, i, t) == TermsByColumn(l, r, g, k, n, i, t) {
      LeftCell(l, r, g, m, k, n, i, t);
    }
    hide MatMul, Cell, TermsByColumn;
    SumSame(k, t => Cell(l, k, i, t) * Cell(q, k, i, t), t => TermsByColumn(l, r, g, k, n, i, t));
  }

  lemma LeftCell(l: Vector, r: Vector, g: Vector, m: nat, k: nat, n: nat, i: nat, t: nat)
    requires i < m && t < k
    ensures Cell(l, k, i, t) * Cell(MatMul(g, r, m, n, k, false, true), k, i, t) == TermsByColumn(l, r, g, k, n, i, t)
  {
    CellOfMatrix(m, k, (i, t) => Inner(g, r, m, n, k, false, true, i, t), i, t);
    hide Cell, Matrix;
    var f := j => Cell(g, n, i, j) * Cell(r, n, t, j);
    var c := Cell(l, k, i, t);
    SumSame(n, j => Left(g, m, n, false, i, j) * Right(r, n, k, true, j, t), f);
    SumTimes(n, f, c);
    forall j | 0 <= j < n ensures f(j) * c == Term(l, r, g, k, n, i, j, t) {
      Reassociate3(Cell(g, n, i, j), Cell(r, n, t, j), c);
    }
    SumSame(n, j => f(j) * c, j => Term(l, r, g, k, n, i, j, t));
    Commute(c, Sum(n, f));
  }

  lemma Commute(a: int, b: int)
    ensures a * b == b * a
  {
  }

  lemma Reassociate3(a: int, b: int, c: int)
    ensures (a * b) * c == (c * b) * a && (c * a) * b == (c * b) * a && (a * b) * c == (a * c) * b
  {
  }

  /** The gradient of the left factor: the incoming one times the transpose of the right factor. */
  lemma MatMulLeftDual(l: Vector, r: Vector, g: Vector, m: nat, k: nat, n: nat)
    requires |l| == m * k && |r| == k * n && |g| == m * n
    ensures Dot(MatMul(l, r, m, k, n, false, false), g) == Dot(l, MatMul(g, r, m, n, k, false, true))
  {
    DotMatrix(MatMul(l, r, m, k, n, false, false), g, m, n);
    DotMatrix(l, MatMul(g, r, m, n, k, false, true), m, k);
    var p, q := MatMul(l, r, m, k, n, false, false), MatMul(g, r, m, n, k, false, true);
    forall i | 0 <= i < m ensures DotRow(p, g, n, i) == DotRow(l, q, k, i) {
      ProductRow(l, r, g, m, k, n, i);
      LeftRow(l, r, g, m, k, n, i);
      ExchangeInner(l, r, g, k, n, i);
    }
    SumSame(m, i => DotRow(p, g, n, i), i => DotRow(l, q, k, i));
  }

  lemma ExchangeInner(l: Vector, r: Vector, g: Vector, k: nat, n: nat, i: nat)
    ensures Sum(n, j => TermsByInner(l, r, g, k, n, i, j)) == Sum(k, t => TermsByColumn(l, r, g, k, n, i, t))
  {
    var f := (j, t) => Term(l, r, g, k, n, i, j, t);
    SumExchange(n, k, f);
    forall j | 0 <= j < n ensures RowSum(f, k, j) == TermsByInner(l, r, g, k, n, i, j) {
      SumSame(k, t => f(j, t), t => Term(l, r, g, k, n, i, j, t));
    }
    forall t | 0 <= t < k ensures ColumnSum(f, n, t) == TermsByColumn(l, r, g, k, n, i, t) {
      SumSame(n, j => f(j, t), j => Term(l, r, g, k, n, i, j, t));
    }
    SumSame(n, j => RowSum(f, k, j), j => TermsByInner(l, r, g, k, n, i, j));
    SumSame(k, t => ColumnSum(f, n, t), t => TermsByColumn(l, r, g, k, n, i, t));
  }

  /** Row t of r against the product of the transpose of l and g. */
  lemma RightRow(l: Vector, r: Vector, g: Vector, m: nat, k: nat, n: nat, t: nat)
    requires t < k
    ensures DotRow(r, MatMul(l, g, k, m, n, true, false), n, t) == Sum(n, j => TermsByRow(l, r, g, m, k, n, t, j))
  {
    var q := MatMul(l, g, k, m, n, true, false);
    forall j | 0 <= j < n ensures Cell(r, n, t, j) * Cell(q, n, t, j) == TermsByRow(l, r, g, m, k, n, t, j) {
      RightCell(l, r, g, m, k, n, t, j);
    }
    hide MatMul, Cell, TermsByRow;
    SumSame(n, j => Cell(r, n, t, j) * Cell(q, n, t, j), j => TermsByRow(l, r, g, m, k, n, t, j));
  }

  lemma RightCell(l: Vector, r: Vector, g: Vector, m: nat, k: nat, n: nat, t: nat, j: nat)
    requires t < k && j < n
    ensures Cell(r, n, t, j) * Cell(MatMul(l, g, k, m, n, true, false), n, t, j) == TermsByRow(l, r, g, m, k, n, t, j)
  {
    CellOfMatrix(k, n, (t, j) => Inner(l, g, k, m, n, true, false, t, j), t, j);
    hide Cell, Matrix;
    var f := i => Cell(l, k, i, t) * Cell(g, n, i, j);
    var c := Cell(r, n, t, j);
    SumSame(m, i => Left(l, k, m, true, t, i) * Right(g, m, n, false, i, j), f);
    SumTimes(m, f, c);
    forall i | 0 <= i < m ensures f(i) * c == Term(l, r, g, k, n, i, j, t) {
      Reassociate3(Cell(l, k, i, t), Cell(g, n, i, j), c);
    }
    SumSame(m, i => f(i) * c, i => Term(l, r, g, k, n, i, j, t));
    Commute(c, Sum(m, f));
  }

  /** The gradient of the right factor: the transpose of the left factor times the incoming one. */
  lemma MatMulRightDual(l: Vector, r: Vector, g: Vector, m: nat, k: nat, n: nat)
    requires |l| == m * k && |r| == k * n && |g| == m * n
    ensures Dot(MatMul(l, r, m, k, n, false, false), g) == Dot(r, MatMul(l, g, k, m, n, true, false))
  {
    var p, q := MatMul(l, r, m, k, n, false, false), MatMul(l, g, k, m, n, true, false);
    DotMatrix(p, g, m, n);
    DotMatrix(r, q, k, n);
    forall i | 0 <= i < m ensures DotRow(p, g, n, i) == Sum(n, j => TermsByInner(l, r, g, k, n, i, j)) {
      ProductRow(l, r, g, m, k, n, i);
    }
    forall t | 0 <= t < k ensures DotRow(r, q, n, t) == Sum(n, j => TermsByRow(l, r, g, m, k, n, t, j)) {
      RightRow(l, r, g, m, k, n, t);
    }
    RotateSums(l, r, g, m, k, n);
    SumSame(m, i => DotRow(p, g, n, i), i => AllByInner(l, r, g, k, n, i));
    SumSame(k, t => DotRow(r, q, n, t), t => AllByRow(l, r, g, m, k, n, t));
  }

  function AllByInner(l: Vector, r: Vector, g: Vector, k: nat, n: nat, i: int): int {
    Sum(n, j => TermsByInner(l, r, g, k, n, i, j))
  }

  function AllByRow(l: Vector, r: Vector, g: Vector, m: nat, k: nat, n: nat, t: int): int {
    Sum(n, j => TermsByRow(l, r, g, m, k, n, t, j))
  }

  function ColumnByInner(l: Vector, r: Vector, g: Vector, m: nat, k: nat, n: nat, j: int): int {
    Sum(m, i => TermsByInner(l, r, g, k, n, i, j))
  }

  function ColumnByRow(l: Vector, r: Vector, g: Vector, m: nat, k: nat, n: nat, j: int): int {
    Sum(k, t => TermsByRow(l, r, g, m, k, n, t, j))
  }

  lemma InnerByColumns(l: Vector, r: Vector, g: Vector, m: nat, k: nat, n: nat)
    ensures Sum(m, i => AllByInner(l, r, g, k, n, i)) == Sum(n, j => ColumnByInner(l, r, g, m, k, n, j))
  {
    hide TermsByInner;
    var f := (i, j) => TermsByInner(l, r, g, k, n, i, j);
    SumExchange(m, n, f);
    forall i | 0 <= i < m ensures RowSum(f, n, i) == AllByInner(l, r, g, k, n, i) {
      SumSame(n, j => f(i, j), j => TermsByInner(l, r, g, k, n, i, j));
    }
    forall j | 0 <= j < n ensures ColumnSum(f, m, j) == ColumnByInner(l, r, g, m, k, n, j) {
      SumSame(m, i => f(i, j), i => TermsByInner(l, r, g, k, n, i, j));
    }
    SumSame(m, i => RowSum(f, n, i), i => AllByInner(l, r, g, k, n, i));
    SumSame(n, j => ColumnSum(f, m, j), j => ColumnByInner(l, r, g, m, k, n, j));
  }

  lemma RowByColumns(l: Vector, r: Vector, g: Vector, m: nat, k: nat, n: nat)
    ensures Sum(k, t => AllByRow(l, r, g, m, k, n, t)) == Sum(n, j => ColumnByRow(l, r, g, m, k, n, j))
  {
    hide TermsByRow;
    var f := (t, j) => TermsByRow(l, r, g, m, k, n, t, j);
    SumExchange(k, n, f);
    forall t | 0 <= t < k ensures RowSum(f, n, t) == AllByRow(l, r, g, m, k, n, t) {
      SumSame(n, j => f(t, j), j => TermsByRow(l, r, g, m, k, n, t, j));
    }
    forall j | 0 <= j < n ensures ColumnSum(f, k, j) == ColumnByRow(l, r, g, m, k, n, j) {
      SumSame(k, t => f(t, j), t => TermsByRow(l, r, g, m, k, n, t, j));
    }
    SumSame(k, t => RowSum(f, n, t), t => AllByRow(l, r, g, m, k, n, t));
    SumSame(n, j => ColumnSum(f, k, j), j => ColumnByRow(l, r, g, m, k, n, j));
  }

  /** Summing by row, column and inner index is summing by inner index, column and row. */
  lemma RotateSums(l: Vector, r: Vector, g: Vector, m: nat, k: nat, n: nat)
    ensures Sum(m, i => AllByInner(l, r, g, k, n, i)) == Sum(k, t => AllByRow(l, r, g, m, k, n, t))
  {
    InnerByColumns(l, r, g, m, k, n);
    RowByColumns(l, r, g, m, k, n);
    forall j | 0 <= j < n ensures ColumnByInner(l, r, g, m, k, n, j) == ColumnByRow(l, r, g, m, k, n, j) {
      RotateColumn(l, r, g, m, k, n, j);
    }
    hide ColumnByInner, ColumnByRow, AllByInner, AllByRow;
    SumSame(n, j => ColumnByInner(l, r, g, m, k, n, j), j => ColumnByRow(l, r, g, m, k, n, j));
  }

  lemma RotateColumn(l: Vector, r: Vector, g: Vector, m: nat, k: nat, n: nat, j: nat)
    ensures Sum(m, i => TermsByInner(l, r, g, k, n, i, j)) == Sum(k, t => TermsByRow(l, r, g, m, k, n, t, j))
  {
    var e := (i, t) => Term(l, r, g, k, n, i, j, t);
    SumExchange(m, k, e);
    forall i | 0 <= i < m ensures TermsByInner(l, r, g, k, n, i, j) == RowSum(e, k, i) {
      SumSame(k, t => Term(l, r, g, k, n, i, j, t), t => e(i, t));
    }
    forall t | 0 <= t < k ensures TermsByRow(l, r, g, m, k, n, t, j) == ColumnSum(e, m, t) {
      SumSame(m, i => Term(l, r, g, k, n, i, j, t), i => e(i, t));
    }
    SumSame(m, i => TermsByInner(l, r, g, k, n, i, j), i => RowSum(e, k, i));
    SumSame(k, t => TermsByRow(l, r, g, m, k, n, t, j), t => ColumnSum(e, m, t));
  }
}
