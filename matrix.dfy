/**
 * NetRayTracer's Matrix: a mutable grid of floats indexed as [column, row], with a product,
 * an equality test and the identity.
 */
module Matrices {
  import opened Errors

  /** The as-written product sizes its result (A.Rows, B.Columns) but writes cell [j, i] for j < B.Columns, i < A.Rows. */
  predicate WritesOutside(aColumns: nat, aRows: nat, bColumns: nat)
  {
    aColumns > 0 && aRows > 0 && bColumns > 0 && aRows != bColumns
  }

  class Matrix {
    const Columns: nat
    const Rows: nat
    const data: array2<real>

    ghost predicate Valid()
    {
      data.Length0 == Columns && data.Length1 == Rows
    }

    /** new Matrix(columns, rows): a zero-filled grid */
    constructor (columns: nat, rows: nat)
      ensures Valid() && Columns == columns && Rows == rows && fresh(data)
      ensures forall x, y :: 0 <= x < columns && 0 <= y < rows ==> data[x, y] == 0.0
    {
      Columns := columns;
      Rows := rows;
      data := new real[columns, rows]((_, _) => 0.0);
    }

    /** Indexer get: the entry at column x, row y */
    function Get(x: int, y: int): (r: Result<real>)
      requires Valid()
      reads data
      ensures r.Ok? <==> 0 <= x < Columns && 0 <= y < Rows
      ensures r.Ok? ==> r.value == data[x, y]
      ensures r.Fail? ==> r.error == IndexOutOfRange
    {
      if 0 <= x < Columns && 0 <= y < Rows then Ok(data[x, y]) else Fail(IndexOutOfRange)
    }

    /** Indexer set: afterwards Get(x, y) yields v and no other entry has changed */
    method Set(x: int, y: int, v: real) returns (r: Result<()>)
      requires Valid()
      modifies data
      ensures r.Ok? <==> 0 <= x < Columns && 0 <= y < Rows
      ensures r.Fail? ==> r.error == IndexOutOfRange && unchanged(data)
      ensures r.Ok? ==> Get(x, y) == Ok(v)
      ensures forall i, j :: 0 <= i < Columns && 0 <= j < Rows && (i != x || j != y) ==> data[i, j] == old(data[i, j])
    {
      if 0 <= x < Columns && 0 <= y < Rows {
        data[x, y] := v;
        r := Ok(());
      } else {
        r := Fail(IndexOutOfRange);
      }
    }

    /** The first n terms of the dot product of row `row` of A with column `col` of B. */
    static function ProdSum(A: Matrix, B: Matrix, col: int, row: int, n: nat): real
      requires A.Valid() && B.Valid()
      requires n <= A.Columns && n <= B.Rows
      requires n > 0 ==> 0 <= row < A.Rows && 0 <= col < B.Columns
      reads A.data, B.data
    {
      if n == 0 then 0.0 else ProdSum(A, B, col, row, n - 1) + A.data[n - 1, row] * B.data[col, n - 1]
    }

    /** What the as-written product leaves in cell [x, y]: the product entry where it computes one, zero elsewhere. */
    static function ProductEntry(A: Matrix, B: Matrix, x: int, y: int): real
      requires A.Valid() && B.Valid() && A.Columns == B.Rows
      reads A.data, B.data
    {
      if 0 <= x < B.Columns && 0 <= y < A.Rows then ProdSum(A, B, x, y, A.Columns) else 0.0
    }

    /** operator * as written: the result is allocated as new Matrix(A.Rows, B.Columns). */
    static method Multiply(A: Matrix, B: Matrix) returns (r: Result<Matrix>)
      requires A.Valid() && B.Valid()
      ensures A.Columns != B.Rows ==> r == Fail(InvalidOperation)
      ensures A.Columns == B.Rows && WritesOutside(A.Columns, A.Rows, B.Columns) ==> r == Fail(IndexOutOfRange)
      ensures r.Ok? <==> A.Columns == B.Rows && !WritesOutside(A.Columns, A.Rows, B.Columns)
      ensures r.Ok? ==> fresh(r.value) && fresh(r.value.data) && r.value.Valid()
      ensures r.Ok? ==> r.value.Columns == A.Rows && r.value.Rows == B.Columns
      ensures r.Ok? ==> forall x, y :: 0 <= x < r.value.Columns && 0 <= y < r.value.Rows ==>
                          r.value.data[x, y] == ProductEntry(A, B, x, y)
    {
      if A.Columns != B.Rows {
        return Fail(InvalidOperation);
      }
      var m := new Matrix(A.Rows, B.Columns);
      var i := 0;
      while i < A.Rows
        invariant 0 <= i <= A.Rows
        invariant forall x, y :: 0 <= x < m.Columns && 0 <= y < m.Rows ==>
                    m.data[x, y] == (if y < i && x < B.Columns then ProdSum(A, B, x, y, A.Columns) else 0.0)
        invariant A.Columns > 0 && i > 0 && B.Columns > 0 ==> B.Columns <= A.Rows && i <= B.Columns
      {
        var j := 0;
        while j < B.Columns
          invariant 0 <= j <= B.Columns
          invariant forall x, y :: 0 <= x < m.Columns && 0 <= y < m.Rows ==>
                      m.data[x, y] == (if (y < i || (y == i && x < j)) && x < B.Columns then ProdSum(A, B, x, y, A.Columns) else 0.0)
          invariant A.Columns > 0 && j > 0 ==> j <= A.Rows && i < B.Columns
          invariant A.Columns > 0 && i > 0 && B.Columns > 0 ==> B.Columns <= A.Rows && i <= B.Columns
        {
          var k := 0;
          while k < A.Columns
            invariant 0 <= k <= A.Columns
            invariant k > 0 ==> j < m.Columns && i < m.Rows
            invariant forall x, y :: 0 <= x < m.Columns && 0 <= y < m.Rows ==>
                        m.data[x, y] == (if x == j && y == i then ProdSum(A, B, x, y, k)
                                         else if (y < i || (y == i && x < j)) && x < B.Columns then ProdSum(A, B, x, y, A.Columns)
                                         else 0.0)
          {
            if !(j < m.Columns && i < m.Rows) {
              return Fail(IndexOutOfRange);
            }
            m.data[j, i] := m.data[j, i] + A.data[k, i] * B.data[j, k];
            k := k + 1;
          }
          j := j + 1;
        }
        i := i + 1;
      }
      return Ok(m);
    }

    /** operator * as evidently intended: the result has B.Columns columns and A.Rows rows. */
    static method MultiplyCorrected(A: Matrix, B: Matrix) returns (r: Result<Matrix>)
      requires A.Valid() && B.Valid()
      ensures r.Fail? <==> A.Columns != B.Rows
      ensures r.Fail? ==> r.error == InvalidOperation
      ensures r.Ok? ==> fresh(r.value) && fresh(r.value.data) && r.value.Valid()
      ensures r.Ok? ==> r.value.Columns == B.Columns && r.value.Rows == A.Rows
      ensures r.Ok? ==> forall x, y :: 0 <= x < r.value.Columns && 0 <= y < r.value.Rows ==>
                          r.value.data[x, y] == ProdSum(A, B, x, y, A.Columns)
    {
      if A.Columns != B.Rows {
        return Fail(InvalidOperation);
      }
      var m := new Matrix(B.Columns, A.Rows);
      var i := 0;
      while i < A.Rows
        invariant 0 <= i <= A.Rows
        invariant forall x, y :: 0 <= x < m.Columns && 0 <= y < m.Rows ==>
                    m.data[x, y] == (if y < i then ProdSum(A, B, x, y, A.Columns) else 0.0)
      {
        var j := 0;
        while j < B.Columns
          invariant 0 <= j <= B.Columns
          invariant forall x, y :: 0 <= x < m.Columns && 0 <= y < m.Rows ==>
                      m.data[x, y] == (if y < i || (y == i && x < j) then ProdSum(A, B, x, y, A.Columns) else 0.0)
        {
          var k := 0;
          while k < A.Columns
            invariant 0 <= k <= A.Columns
            invariant forall x, y :: 0 <= x < m.Columns && 0 <= y < m.Rows ==>
                        m.data[x, y] == (if x == j && y == i then ProdSum(A, B, x, y, k)
                                         else if y < i || (y == i && x < j) then ProdSum(A, B, x, y, A.Columns)
                                         else 0.0)
          {
            m.data[j, i] := m.data[j, i] + A.data[k, i] * B.data[j, k];
            k := k + 1;
          }
          j := j + 1;
        }
        i := i + 1;
      }
      return Ok(m);
    }

    /** Same shape and the same entry in every cell. */
    static predicate SameEntries(a: Matrix, b: Matrix)
      requires a.Valid() && b.Valid()
      reads a.data, b.data
    {
      a.Columns == b.Columns && a.Rows == b.Rows &&
      forall x, y :: 0 <= x < a.Columns && 0 <= y < a.Rows ==> a.data[x, y] == b.data[x, y]
    }

    /** operator ==: different shapes are unequal, otherwise the first differing cell decides. */
    static method Equal(a: Matrix, b: Matrix) returns (eq: bool)
      requires a.Valid() && b.Valid()
      ensures eq <==> SameEntries(a, b)
    {
      if a.Columns != b.Columns || a.Rows != b.Rows {
        return false;
      }
      var i := 0;
      while i < a.Columns
        invariant 0 <= i <= a.Columns
        invariant forall x, y :: 0 <= x < i && 0 <= y < a.Rows ==> a.data[x, y] == b.data[x, y]
      {
        var j := 0;
        while j < a.Rows
          invariant 0 <= j <= a.Rows
          invariant forall x, y :: 0 <= x < i && 0 <= y < a.Rows ==> a.data[x, y] == b.data[x, y]
          invariant forall y :: 0 <= y < j ==> a.data[i, y] == b.data[i, y]
        {
          if a.data[i, j] != b.data[i, j] {
            return false;
          }
          j := j + 1;
        }
        i := i + 1;
      }
      return true;
    }

    /** operator != */
    static method NotEqual(a: Matrix, b: Matrix) returns (ne: bool)
      requires a.Valid() && b.Valid()
      ensures ne <==> !SameEntries(a, b)
    {
      var eq := Equal(a, b);
      ne := !eq;
    }

    /** operator == on references: its first line reads a.Columns and b.Columns, so a null operand throws. */
    static method OpEq(a: Matrix?, b: Matrix?) returns (r: Result<bool>)
      requires a != null ==> a.Valid()
      requires b != null ==> b.Valid()
      ensures a == null || b == null ==> r == Fail(NullReference)
      ensures a != null && b != null ==> r == Ok(SameEntries(a, b))
    {
      if a == null || b == null {
        return Fail(NullReference);
      }
      var eq := Equal(a, b);
      return Ok(eq);
    }

    /** operator != on references: !(a == b), which throws with it. */
    static method OpNeq(a: Matrix?, b: Matrix?) returns (r: Result<bool>)
      requires a != null ==> a.Valid()
      requires b != null ==> b.Valid()
      ensures a == null || b == null ==> r == Fail(NullReference)
      ensures a != null && b != null ==> r == Ok(!SameEntries(a, b))
    {
      var eq := OpEq(a, b);
      if eq.Fail? {
        return Fail(eq.error);
      }
      return Ok(!eq.value);
    }

    /**
     * Equals(object) as written: `obj as Matrix` is null for null and for any non-matrix, and the
     * test `m != null` resolves to the overloaded operator !=, whose == reads the null operand.
     */
    method EqualsObject(obj: Matrix?) returns (r: Result<bool>)
      requires Valid()
      requires obj != null ==> obj.Valid()
      ensures r == Fail(NullReference)
    {
      var notNull := OpNeq(obj, null);
      match notNull
      case Fail(e) =>
        r := Fail(e);
      case Ok(b) =>
        if b {
          r := OpEq(this, obj);
        } else {
          r := Ok(false);
        }
    }

    /** Equals(object) with the null test done on the reference, as evidently intended. */
    method EqualsObjectCorrected(obj: Matrix?) returns (eq: bool)
      requires Valid()
      requires obj != null ==> obj.Valid()
      ensures obj == null ==> !eq
      ensures obj != null ==> (eq <==> SameEntries(this, obj))
    {
      if obj == null {
        return false;
      }
      eq := Equal(this, obj);
    }

    static predicate IsIdentity(m: Matrix)
      requires m.Valid()
      reads m.data
    {
      m.Columns == m.Rows &&
      forall x, y :: 0 <= x < m.Columns && 0 <= y < m.Rows ==> m.data[x, y] == if x == y then 1.0 else 0.0
    }

    /** Matrix.Identity(n): an n x n matrix with ones on the diagonal */
    static method Identity(n: nat) returns (m: Matrix)
      ensures fresh(m) && fresh(m.data) && m.Valid()
      ensures m.Columns == n && m.Rows == n && IsIdentity(m)
    {
      m := new Matrix(n, n);
      var x := 0;
      while x < n
        invariant 0 <= x <= n
        invariant forall i, j :: 0 <= i < n && 0 <= j < n ==> m.data[i, j] == if i == j && i < x then 1.0 else 0.0
      {
        m.data[x, x] := 1.0;
        x := x + 1;
      }
    }

    /** The identity is a left unit of the product. */
    static lemma {:induction false} IdentityLeftUnit(I: Matrix, B: Matrix, col: int, row: int, n: nat)
      requires I.Valid() && B.Valid() && IsIdentity(I)
      requires n <= I.Columns && n <= B.Rows
      requires 0 <= row < I.Rows && 0 <= col < B.Columns
      ensures ProdSum(I, B, col, row, n) == if row < n then B.data[col, row] else 0.0
    {
      if n > 0 {
        IdentityLeftUnit(I, B, col, row, n - 1);
      }
    }

    /** The identity is a right unit of the product. */
    static lemma {:induction false} IdentityRightUnit(A: Matrix, I: Matrix, col: int, row: int, n: nat)
      requires A.Valid() && I.Valid() && IsIdentity(I)
      requires n <= A.Columns && n <= I.Rows
      requires 0 <= row < A.Rows && 0 <= col < I.Columns
      ensures ProdSum(A, I, col, row, n) == if col < n then A.data[col, row] else 0.0
    {
      if n > 0 {
        IdentityRightUnit(A, I, col, row, n - 1);
      }
    }
  }

  /** Compatible shapes that still make the as-written product index outside its result: 2 columns x 3 rows times 4 columns x 2 rows. */
  lemma WritesOutsideExample()
    ensures WritesOutside(2, 3, 4)
  {
  }

  /** For every square pair of shapes the as-written and the corrected product agree. */
  lemma SquareShapesAgree(aColumns: nat, aRows: nat, bColumns: nat)
    requires aRows == bColumns
    ensures !WritesOutside(aColumns, aRows, bColumns)
  {
  }

  /** MatrixTests.MatrixIdentityMultiplication: Identity(2) * Identity(2) == Identity(2). */
  method IdentityMultiplicationTest() returns (eq: bool)
    ensures eq
  {
    var m1 := Matrix.Identity(2);
    var m2 := Matrix.Identity(2);
    var p := Matrix.Multiply(m1, m2);
    assert p.Ok?;
    var m1m2 := p.value;
    forall x, y | 0 <= x < 2 && 0 <= y < 2
      ensures m1m2.data[x, y] == m1.data[x, y]
    {
      Matrix.IdentityLeftUnit(m1, m2, x, y, 2);
    }
    eq := Matrix.Equal(m1m2, m1);
  }

  /** A sum of two terms, unfolded. */
  lemma ProdSumOfTwo(A: Matrix, B: Matrix, col: int, row: int)
    requires A.Valid() && B.Valid()
    requires 2 <= A.Columns && 2 <= B.Rows
    requires 0 <= row < A.Rows && 0 <= col < B.Columns
    ensures Matrix.ProdSum(A, B, col, row, 2) == A.data[0, row] * B.data[col, 0] + A.data[1, row] * B.data[col, 1]
  {
    assert Matrix.ProdSum(A, B, col, row, 1) == A.data[0, row] * B.data[col, 0];
  }

  /** A matrix filled cell by cell through the indexer, as the tests build theirs: cells[x][y] goes to column x, row y. */
  method FromCells(columns: nat, rows: nat, cells: seq<seq<real>>) returns (m: Matrix)
    requires |cells| == columns && forall x :: 0 <= x < columns ==> |cells[x]| == rows
    ensures fresh(m) && fresh(m.data) && m.Valid() && m.Columns == columns && m.Rows == rows
    ensures forall x, y :: 0 <= x < columns && 0 <= y < rows ==> m.data[x, y] == cells[x][y]
  {
    m := new Matrix(columns, rows);
    var x := 0;
    while x < columns
      invariant 0 <= x <= columns
      invariant forall i, j :: 0 <= i < x && 0 <= j < rows ==> m.data[i, j] == cells[i][j]
    {
      var y := 0;
      while y < rows
        invariant 0 <= y <= rows
        invariant forall i, j :: 0 <= i < x && 0 <= j < rows ==> m.data[i, j] == cells[i][j]
        invariant forall j :: 0 <= j < y ==> m.data[x, j] == cells[x][j]
      {
        m.data[x, y] := cells[x][y];
        y := y + 1;
      }
      x := x + 1;
    }
  }

  /** MatrixTests.MatrixMultiplication, first product: [[1,1],[0,0]] squared is itself. */
  method SquareMultiplicationTest() returns (eq: bool)
    ensures eq
  {
    var m1 := FromCells(2, 2, [[1.0, 1.0], [0.0, 0.0]]);
    var m2 := FromCells(2, 2, [[1.0, 1.0], [0.0, 0.0]]);
    var p := Matrix.Multiply(m1, m2);
    assert p.Ok?;
    var m1m2 := p.value;
    forall x, y | 0 <= x < 2 && 0 <= y < 2
      ensures m1m2.data[x, y] == m1.data[x, y]
    {
      ProdSumOfTwo(m1, m2, x, y);
    }
    eq := Matrix.Equal(m1m2, m1);
  }

  /** MatrixTests.MatrixMultiplication, second product: a 2-column, 3-row matrix times a 3-column, 2-row one. */
  method RectangularMultiplicationTest() returns (eq: bool)
    ensures eq
  {
    var m3 := FromCells(2, 3, [[0.0, 2.0, 4.0], [1.0, 3.0, 5.0]]);
    var m4 := FromCells(3, 2, [[0.0, 1.0], [1.0, 0.0], [0.0, 1.0]]);
    var q := Matrix.Multiply(m3, m4);
    assert q.Ok?;
    var m3m4 := q.value;
    var cells := [[1.0, 3.0, 5.0], [0.0, 2.0, 4.0], [1.0, 3.0, 5.0]];
    forall x, y | 0 <= x < 3 && 0 <= y < 3
      ensures m3m4.data[x, y] == cells[x][y]
    {
      ProdSumOfTwo(m3, m4, x, y);
    }
    var expected := FromCells(3, 3, cells);
    eq := Matrix.Equal(expected, m3m4);
  }
}
