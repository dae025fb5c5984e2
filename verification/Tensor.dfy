/** Exact-real tensors: finite sums, matrices with a total accessor, and the
    row-slice writes that the chunk code performs on its preallocated buffers. */
module Tensor {

  type Matrix = seq<seq<real>>
  type Vector = seq<real>

  // ---------------------------------------------------------------------
  // Sums
  // ---------------------------------------------------------------------

  /** f(lo) + ... + f(hi - 1). */
  function Sum(lo: int, hi: int, f: int -> real): real
    decreases hi - lo
  {
    if hi <= lo then 0.0 else Sum(lo, hi - 1, f) + f(hi - 1)
  }

  lemma SumLast(lo: int, hi: int, f: int -> real)
    requires lo < hi
    ensures Sum(lo, hi, f) == Sum(lo, hi - 1, f) + f(hi - 1)
  {}

  lemma Distribute(c: real, x: real, y: real)
    ensures c * (x + y) == c * x + c * y
  {}

  lemma Assoc(x: real, y: real, z: real)
    ensures x * y * z == x * (y * z)
  {}

  lemma {:induction false} SumExt(lo: int, hi: int, f: int -> real, g: int -> real)
    requires forall i | lo <= i < hi :: f(i) == g(i)
    ensures Sum(lo, hi, f) == Sum(lo, hi, g)
    decreases hi - lo
  {
    if lo < hi { SumExt(lo, hi - 1, f, g); }
  }

  lemma {:induction false} SumZero(lo: int, hi: int, f: int -> real)
    requires forall i | lo <= i < hi :: f(i) == 0.0
    ensures Sum(lo, hi, f) == 0.0
    decreases hi - lo
  {
    if lo < hi { SumZero(lo, hi - 1, f); }
  }

  /** h = f + g pointwise. */
  lemma {:induction false} SumAdd(lo: int, hi: int, f: int -> real, g: int -> real, h: int -> real)
    requires forall i | lo <= i < hi :: h(i) == f(i) + g(i)
    ensures Sum(lo, hi, h) == Sum(lo, hi, f) + Sum(lo, hi, g)
    decreases hi - lo
  {
    if lo < hi { SumAdd(lo, hi - 1, f, g, h); }
  }

  /** g = c * f pointwise. */
  lemma {:induction false} SumScale(lo: int, hi: int, c: real, f: int -> real, g: int -> real)
    requires forall i | lo <= i < hi :: g(i) == c * f(i)
    ensures Sum(lo, hi, g) == c * Sum(lo, hi, f)
    decreases hi - lo
  {
    if lo < hi {
      SumScale(lo, hi - 1, c, f, g);
      Distribute(c, Sum(lo, hi - 1, f), f(hi - 1));
    }
  }

  /** A pointwise balance f1 + c f2 == g1 + d g2 holds of the sums. */
  lemma {:induction false} SumBalance(lo: int, hi: int, f1: int -> real, c: real, f2: int -> real,
                                      g1: int -> real, d: real, g2: int -> real)
    requires forall i | lo <= i < hi :: f1(i) + c * f2(i) == g1(i) + d * g2(i)
    ensures Sum(lo, hi, f1) + c * Sum(lo, hi, f2) == Sum(lo, hi, g1) + d * Sum(lo, hi, g2)
    decreases hi - lo
  {
    if lo < hi {
      SumBalance(lo, hi - 1, f1, c, f2, g1, d, g2);
      Distribute(c, Sum(lo, hi - 1, f2), f2(hi - 1));
      Distribute(d, Sum(lo, hi - 1, g2), g2(hi - 1));
    }
  }

  lemma {:induction false} SumThree(n: int, f: int -> real, c1: real, f1: int -> real, c2: real, f2: int -> real,
                                    c3: real, f3: int -> real)
    requires forall i | 0 <= i < n :: f(i) == c1 * f1(i) + c2 * f2(i) + c3 * f3(i)
    ensures Sum(0, n, f) == c1 * Sum(0, n, f1) + c2 * Sum(0, n, f2) + c3 * Sum(0, n, f3)
  {
    if 0 < n {
      SumThree(n - 1, f, c1, f1, c2, f2, c3, f3);
      Distribute(c1, Sum(0, n - 1, f1), f1(n - 1));
      Distribute(c2, Sum(0, n - 1, f2), f2(n - 1));
      Distribute(c3, Sum(0, n - 1, f3), f3(n - 1));
    }
  }

  lemma {:induction false} SumSplit(lo: int, mid: int, hi: int, f: int -> real)
    requires lo <= mid <= hi
    ensures Sum(lo, hi, f) == Sum(lo, mid, f) + Sum(mid, hi, f)
    decreases hi - mid
  {
    if mid < hi { SumSplit(lo, mid, hi - 1, f); }
  }

  /** Product of f over lo .. hi - 1. */
  function Prod(lo: int, hi: int, f: int -> real): real
    decreases hi - lo
  {
    if hi <= lo then 1.0 else Prod(lo, hi - 1, f) * f(hi - 1)
  }

  lemma ProdEmpty(t: int, f: int -> real)
    ensures Prod(t, t, f) == 1.0
  {}

  lemma ProdLast(lo: int, hi: int, f: int -> real)
    requires lo < hi
    ensures Prod(lo, hi, f) == Prod(lo, hi - 1, f) * f(hi - 1)
  {}

  lemma {:induction false} ProdFirst(lo: int, hi: int, f: int -> real)
    requires lo < hi
    ensures Prod(lo, hi, f) == f(lo) * Prod(lo + 1, hi, f)
    decreases hi - lo
  {
    if lo + 1 < hi {
      ProdFirst(lo, hi - 1, f);
      Assoc(f(lo), Prod(lo + 1, hi - 1, f), f(hi - 1));
    } else {
      assert Prod(lo, lo, f) == 1.0;
    }
  }

  lemma SumFirst(lo: int, hi: int, f: int -> real)
    requires lo < hi
    ensures Sum(lo, hi, f) == f(lo) + Sum(lo + 1, hi, f)
  {
    SumSplit(lo, lo + 1, hi, f);
    assert Sum(lo, lo, f) == 0.0;
  }

  /** g is f moved down by d. */
  lemma {:induction false} SumShift(lo: int, hi: int, d: int, f: int -> real, g: int -> real)
    requires forall i | lo <= i < hi :: g(i) == f(i + d)
    ensures Sum(lo, hi, g) == Sum(lo + d, hi + d, f)
    decreases hi - lo
  {
    if lo < hi { SumShift(lo, hi - 1, d, f, g); }
  }

  /** Exchange of two finite sums: row(s) sums w(s, .), col(i) sums w(., i). */
  lemma {:induction false} SumSwap(lo: int, hi: int, n: int, m: int, w: (int, int) -> real, row: int -> real,
                                   col: int -> real)
    requires forall s | lo <= s < hi :: row(s) == Sum(n, m, i => w(s, i))
    requires forall i | n <= i < m :: col(i) == Sum(lo, hi, s => w(s, i))
    ensures Sum(lo, hi, row) == Sum(n, m, col)
    decreases hi - lo
  {
    if lo < hi {
      var col' := i => Sum(lo, hi - 1, s => w(s, i));
      SumSwap(lo, hi - 1, n, m, w, row, col');
      var last := i => w(hi - 1, i);
      forall i | n <= i < m ensures col(i) == col'(i) + last(i) {
        var f := s => w(s, i);
        assert col(i) == Sum(lo, hi, f);
        assert col'(i) == Sum(lo, hi - 1, f);
      }
      SumAdd(n, m, col', last, col);
      assert row(hi - 1) == Sum(n, m, last);
    } else {
      SumZero(n, m, col);
    }
  }

  /** Sum of f over all cells (i, j) of an n by m block. */
  function Cells(n: int, m: int, f: (int, int) -> real): real {
    Sum(0, n, i => Sum(0, m, j => f(i, j)))
  }

  lemma CellsByRows(n: int, m: int, f: (int, int) -> real, row: int -> real)
    requires forall i | 0 <= i < n :: row(i) == Sum(0, m, j => f(i, j))
    ensures Cells(n, m, f) == Sum(0, n, row)
  {
    SumExt(0, n, i => Sum(0, m, j => f(i, j)), row);
  }

  lemma CellsByColumns(n: int, m: int, f: (int, int) -> real, col: int -> real)
    requires forall j | 0 <= j < m :: col(j) == Sum(0, n, i => f(i, j))
    ensures Cells(n, m, f) == Sum(0, m, col)
  {
    SumSwap(0, n, 0, m, f, i => Sum(0, m, j => f(i, j)), col);
  }

  lemma CellsExt(n: int, m: int, f: (int, int) -> real, g: (int, int) -> real)
    requires forall i, j | 0 <= i < n && 0 <= j < m :: f(i, j) == g(i, j)
    ensures Cells(n, m, f) == Cells(n, m, g)
  {
    var fr := i => Sum(0, m, j => f(i, j));
    var gr := i => Sum(0, m, j => g(i, j));
    forall i | 0 <= i < n ensures fr(i) == gr(i) {
      SumExt(0, m, j => f(i, j), j => g(i, j));
    }
    SumExt(0, n, fr, gr);
  }

  /** h = f + g cell by cell. */
  lemma CellsAdd(n: int, m: int, f: (int, int) -> real, g: (int, int) -> real, h: (int, int) -> real)
    requires forall i, j | 0 <= i < n && 0 <= j < m :: h(i, j) == f(i, j) + g(i, j)
    ensures Cells(n, m, h) == Cells(n, m, f) + Cells(n, m, g)
  {
    var fr := i => Sum(0, m, j => f(i, j));
    var gr := i => Sum(0, m, j => g(i, j));
    var hr := i => Sum(0, m, j => h(i, j));
    forall i | 0 <= i < n ensures hr(i) == fr(i) + gr(i) {
      SumAdd(0, m, j => f(i, j), j => g(i, j), j => h(i, j));
    }
    SumAdd(0, n, fr, gr, hr);
  }

  /** A balance f1 + f2 == g1 + g2, cell by cell, holds in total. */
  lemma CellsBalance(n: int, m: int, f1: (int, int) -> real, f2: (int, int) -> real, g1: (int, int) -> real,
                     g2: (int, int) -> real)
    requires forall i, j | 0 <= i < n && 0 <= j < m :: f1(i, j) + f2(i, j) == g1(i, j) + g2(i, j)
    ensures Cells(n, m, f1) + Cells(n, m, f2) == Cells(n, m, g1) + Cells(n, m, g2)
  {
    hide Cells;
    var both := (i, j) => f1(i, j) + f2(i, j);
    CellsAdd(n, m, f1, f2, both);
    CellsAdd(n, m, g1, g2, both);
  }

  lemma CellsZero(n: int, m: int, f: (int, int) -> real)
    requires forall i, j | 0 <= i < n && 0 <= j < m :: f(i, j) == 0.0
    ensures Cells(n, m, f) == 0.0
  {
    var row := i => Sum(0, m, j => f(i, j));
    forall i | 0 <= i < n ensures row(i) == 0.0 {
      SumZero(0, m, j => f(i, j));
    }
    SumZero(0, n, row);
  }

  lemma {:induction false} SumExpand(n: nat, f: int -> real, f0: int -> real, c1: real, f1: int -> real, c2: real,
                                     f2: int -> real)
    requires forall i | 0 <= i < n :: f(i) == f0(i) + c1 * f1(i) + c2 * f2(i)
    ensures Sum(0, n, f) == Sum(0, n, f0) + c1 * Sum(0, n, f1) + c2 * Sum(0, n, f2)
  {
    if 0 < n {
      SumExpand(n - 1, f, f0, c1, f1, c2, f2);
      Distribute(c1, Sum(0, n - 1, f1), f1(n - 1));
      Distribute(c2, Sum(0, n - 1, f2), f2(n - 1));
    }
  }

  lemma CellsExpand(n: nat, m: nat, f: (int, int) -> real, f0: (int, int) -> real, c1: real, f1: (int, int) -> real,
                    c2: real, f2: (int, int) -> real)
    requires forall i, j | 0 <= i < n && 0 <= j < m :: f(i, j) == f0(i, j) + c1 * f1(i, j) + c2 * f2(i, j)
    ensures Cells(n, m, f) == Cells(n, m, f0) + c1 * Cells(n, m, f1) + c2 * Cells(n, m, f2)
  {
    hide Sum;
    var row, row0, row1, row2 := i => Sum(0, m, j => f(i, j)), i => Sum(0, m, j => f0(i, j)),
      i => Sum(0, m, j => f1(i, j)), i => Sum(0, m, j => f2(i, j));
    forall i | 0 <= i < n ensures row(i) == row0(i) + c1 * row1(i) + c2 * row2(i) {
      SumExpand(m, j => f(i, j), j => f0(i, j), c1, j => f1(i, j), c2, j => f2(i, j));
    }
    SumExpand(n, row, row0, c1, row1, c2, row2);
  }

  /** A masked sum keeps exactly the indices inside the window [t0, t1). */
  lemma SumWindow(n: int, t0: int, t1: int, f: int -> real, g: int -> real)
    requires 0 <= t0 <= t1 <= n
    requires forall s | 0 <= s < n :: g(s) == if t0 <= s < t1 then f(s) else 0.0
    ensures Sum(0, n, g) == Sum(t0, t1, f)
  {
    SumSplit(0, t0, n, g);
    SumSplit(t0, t1, n, g);
    SumZero(0, t0, g);
    SumZero(t1, n, g);
    SumExt(t0, t1, f, g);
  }

  /** Every matrix product of the masked attention has this shape: a masked
      score u . w(s) times z(s), summed over the window, equals u against the
      windowed sum of w(s) z(s). */
  lemma MaskedSwap(c: int, t0: int, t1: int, n: int, u: int -> real, w: (int, int) -> real, z: int -> real,
                   score: int -> real, lhs: int -> real, rhs: int -> real)
    requires 0 <= t0 <= t1 <= c
    requires forall s | 0 <= s < c :: score(s) == if t0 <= s < t1 then Sum(0, n, i => u(i) * w(s, i)) else 0.0
    requires forall s | 0 <= s < c :: lhs(s) == score(s) * z(s)
    requires forall i | 0 <= i < n :: rhs(i) == u(i) * Sum(t0, t1, s => w(s, i) * z(s))
    ensures Sum(0, c, lhs) == Sum(0, n, rhs)
  {
    hide Sum;
    var term := (s: int, i: int) => u(i) * w(s, i) * z(s);
    MaskedRows(c, t0, t1, n, u, w, z, score, lhs, term);
    MaskedCols(t0, t1, n, u, w, z, rhs, term);
    WindowSwap(c, t0, t1, n, term, lhs, rhs);
  }

  lemma MaskedRows(c: int, t0: int, t1: int, n: int, u: int -> real, w: (int, int) -> real, z: int -> real,
                   score: int -> real, lhs: int -> real, term: (int, int) -> real)
    requires forall s | 0 <= s < c :: score(s) == if t0 <= s < t1 then Sum(0, n, i => u(i) * w(s, i)) else 0.0
    requires forall s | 0 <= s < c :: lhs(s) == score(s) * z(s)
    requires forall s, i :: term(s, i) == u(i) * w(s, i) * z(s)
    ensures forall s | 0 <= s < c :: lhs(s) == if t0 <= s < t1 then Sum(0, n, i => term(s, i)) else 0.0
  {
    hide Sum;
    forall s | 0 <= s < c ensures lhs(s) == if t0 <= s < t1 then Sum(0, n, i => term(s, i)) else 0.0 {
      if t0 <= s < t1 { SumScaleRight(n, u, w, z, term, s); }
    }
  }

  lemma MaskedCols(t0: int, t1: int, n: int, u: int -> real, w: (int, int) -> real, z: int -> real,
                   rhs: int -> real, term: (int, int) -> real)
    requires forall i | 0 <= i < n :: rhs(i) == u(i) * Sum(t0, t1, s => w(s, i) * z(s))
    requires forall s, i :: term(s, i) == u(i) * w(s, i) * z(s)
    ensures forall i | 0 <= i < n :: rhs(i) == Sum(t0, t1, s => term(s, i))
  {
    hide Sum;
    forall i | 0 <= i < n ensures rhs(i) == Sum(t0, t1, s => term(s, i)) {
      SumScaleLeft(t0, t1, u, w, z, term, i);
    }
  }

  lemma WindowSwap(c: int, t0: int, t1: int, n: int, term: (int, int) -> real, lhs: int -> real, rhs: int -> real)
    requires 0 <= t0 <= t1 <= c
    requires forall s | 0 <= s < c :: lhs(s) == if t0 <= s < t1 then Sum(0, n, i => term(s, i)) else 0.0
    requires forall i | 0 <= i < n :: rhs(i) == Sum(t0, t1, s => term(s, i))
    ensures Sum(0, c, lhs) == Sum(0, n, rhs)
  {
    var row := s => Sum(0, n, i => term(s, i));
    SumWindow(c, t0, t1, row, lhs);
    SumSwap(t0, t1, 0, n, term, row, rhs);
  }

  lemma SumScaleRight(n: int, u: int -> real, w: (int, int) -> real, z: int -> real, term: (int, int) -> real, s: int)
    requires forall s, i :: term(s, i) == u(i) * w(s, i) * z(s)
    ensures Sum(0, n, i => term(s, i)) == Sum(0, n, i => u(i) * w(s, i)) * z(s)
  {
    var f := i => u(i) * w(s, i);
    var g := i => term(s, i);
    SumScale(0, n, z(s), f, g);
  }

  lemma SumScaleLeft(t0: int, t1: int, u: int -> real, w: (int, int) -> real, z: int -> real, term: (int, int) -> real,
                     i: int)
    requires forall s, i :: term(s, i) == u(i) * w(s, i) * z(s)
    ensures Sum(t0, t1, s => term(s, i)) == u(i) * Sum(t0, t1, s => w(s, i) * z(s))
  {
    var f := s => w(s, i) * z(s);
    var g := s => term(s, i);
    forall s | t0 <= s < t1 ensures g(s) == u(i) * f(s) {}
    SumScale(t0, t1, u(i), f, g);
  }

  // ---------------------------------------------------------------------
  // Matrices
  // ---------------------------------------------------------------------

  ghost predicate IsMatrix(m: Matrix, rows: int, cols: int) {
    |m| == rows && forall i | 0 <= i < rows :: |m[i]| == cols
  }

  /** Element (i, j); zero outside the shape, so that a missing boundary reads as zero. */
  function At(m: Matrix, i: int, j: int): real {
    if 0 <= i < |m| && 0 <= j < |m[i]| then m[i][j] else 0.0
  }

  function El(v: Vector, i: int): real {
    if 0 <= i < |v| then v[i] else 0.0
  }

  function Tab(rows: nat, cols: nat, f: (int, int) -> real): (m: Matrix)
    ensures IsMatrix(m, rows, cols)
    ensures forall i, j | 0 <= i < rows && 0 <= j < cols :: At(m, i, j) == f(i, j)
  {
    seq(rows, i => seq(cols, j => f(i, j)))
  }

  /** m[off : off + h] */
  function Rows(m: Matrix, off: int, h: nat, cols: nat): Matrix {
    Tab(h, cols, (i, j) => At(m, off + i, j))
  }

  function TabV(n: nat, f: int -> real): (v: Vector)
    ensures |v| == n
    ensures forall i | 0 <= i < n :: El(v, i) == f(i)
  {
    seq(n, i => f(i))
  }

  function Zeros(rows: nat, cols: nat): (m: Matrix)
    ensures IsMatrix(m, rows, cols)
    ensures forall i, j :: At(m, i, j) == 0.0
  {
    seq(rows, _ => seq(cols, _ => 0.0))
  }

  lemma SameMatrix(m: Matrix, n: Matrix, rows: int, cols: int)
    requires IsMatrix(m, rows, cols) && IsMatrix(n, rows, cols)
    requires forall i, j | 0 <= i < rows && 0 <= j < cols :: At(m, i, j) == At(n, i, j)
    ensures m == n
  {
    forall i | 0 <= i < rows ensures m[i] == n[i] {
      forall j | 0 <= j < cols ensures m[i][j] == n[i][j] {
        assert At(m, i, j) == At(n, i, j);
      }
    }
  }

  lemma SameVector(v: Vector, w: Vector)
    requires |v| == |w| && forall i | 0 <= i < |v| :: El(v, i) == El(w, i)
    ensures v == w
  {
    forall i | 0 <= i < |v| ensures v[i] == w[i] { assert El(v, i) == El(w, i); }
  }

  /** 1 / d; callers keep d away from zero (the gates are non-zero). */
  function Inv(d: real): real {
    if d == 0.0 then 0.0 else 1.0 / d
  }

  lemma InvCancel(d: real)
    requires d != 0.0
    ensures d * Inv(d) == 1.0
  {}

  /** n / d */
  function Quot(n: real, d: real): real {
    n * Inv(d)
  }

  /** (dS * S).sum(dim=1)[i] */
  function RowDot(dS: Matrix, S: Matrix, dv: int, i: int): real {
    Sum(0, dv, j => At(dS, i, j) * At(S, i, j))
  }

  // ---------------------------------------------------------------------
  // Buffers
  // ---------------------------------------------------------------------

  /** buf[lo : lo + |blk|] = blk */
  method WriteRows(buf: array2<real>, lo: nat, blk: Matrix)
    requires IsMatrix(blk, |blk|, buf.Length1) && lo + |blk| <= buf.Length0
    modifies buf
    ensures forall t, i | 0 <= t < buf.Length0 && 0 <= i < buf.Length1 ::
      buf[t, i] == if lo <= t < lo + |blk| then At(blk, t - lo, i) else old(buf[t, i])
  {
    forall t, i | lo <= t < lo + |blk| && 0 <= i < buf.Length1 {
      buf[t, i] := blk[t - lo][i];
    }
  }

  /** buf[lo : lo + |blk|] += blk */
  method AddRows(buf: array2<real>, lo: nat, blk: Matrix)
    requires IsMatrix(blk, |blk|, buf.Length1) && lo + |blk| <= buf.Length0
    modifies buf
    ensures forall t, i | 0 <= t < buf.Length0 && 0 <= i < buf.Length1 ::
      buf[t, i] == old(buf[t, i]) + if lo <= t < lo + |blk| then At(blk, t - lo, i) else 0.0
  {
    forall t, i | lo <= t < lo + |blk| && 0 <= i < buf.Length1 {
      buf[t, i] := buf[t, i] + blk[t - lo][i];
    }
  }

  lemma MulMono(a: int, b: int, c: int)
    requires a <= b && 0 <= c
    ensures a * c <= b * c
  {}

  /** The token t of chunk n: t / c == n. */
  lemma ChunkIndex(c: int, n: int, t: int)
    requires 0 < c && n * c <= t < n * c + c
    ensures t / c == n
  {
    var q := t / c;
    assert q * c <= t < q * c + c;
    if q < n { MulMono(q + 1, n, c); }
    if n < q { MulMono(n + 1, q, c); }
  }

  /** Row i lies in block i / h, and that block is one of the K. */
  lemma RowInBlock(K: nat, h: nat, i: int)
    requires 0 < h && 0 <= i < K * h
    ensures 0 <= i / h < K && 0 <= i % h < h && i / h * h + i % h == i
  {
    if K <= i / h { MulMono(K, i / h, h); }
  }

  /** Block j of dk cut into NB equal blocks ends inside. */
  lemma BlockEnd(dk: nat, NB: nat, j: nat)
    requires j < NB
    ensures 0 <= j * (dk / NB) && j * (dk / NB) + dk / NB == (j + 1) * (dk / NB) <= dk
    ensures dk % NB == 0 ==> NB * (dk / NB) == dk
  {
    MulMono(j + 1, NB, dk / NB);
  }
}
