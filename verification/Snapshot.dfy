/** Buffers of shape [N * d, c] that hold one [d, c] block per chunk, at row
    offset n * d (a tile is physically two-dimensional). */
module Snapshot {
  import opened Tensor

  ghost predicate HasBlock(rows: int, n: int, d: int) {
    0 <= n && 0 <= d && n * d + d <= rows
  }

  /** Block n, as a value. */
  function BlockOf(buf: array2<real>, n: int, d: int): (m: Matrix)
    requires HasBlock(buf.Length0, n, d)
    reads buf
    ensures IsMatrix(m, d, buf.Length1)
    ensures forall i, j | 0 <= i < d && 0 <= j < buf.Length1 :: At(m, i, j) == buf[n * d + i, j]
  {
    seq(d, i requires 0 <= i < d && HasBlock(buf.Length0, n, d) reads buf =>
      seq(buf.Length1,
        j requires 0 <= j < buf.Length1 && 0 <= i < d && HasBlock(buf.Length0, n, d) reads buf => buf[n * d + i, j]))
  }

  /** buf is the tensor m. */
  ghost predicate BufferIs(buf: array2<real>, m: Matrix)
    reads buf
  {
    IsMatrix(m, buf.Length0, buf.Length1)
    && forall i, j | 0 <= i < buf.Length0 && 0 <= j < buf.Length1 :: buf[i, j] == At(m, i, j)
  }

  /** A vector as a column [d, 1], and back. */
  function Column(v: Vector): Matrix {
    Tab(|v|, 1, (i, _) => El(v, i))
  }

  function Entries(m: Matrix): Vector {
    TabV(|m|, i => At(m, i, 0))
  }

  lemma BlocksApart(m: int, n: int, d: int)
    requires m != n && 0 <= d
    ensures m * d + d <= n * d || n * d + d <= m * d
  {
    if m < n { MulMono(m + 1, n, d); } else { MulMono(n + 1, m, d); }
  }

  lemma BlockFits(N: int, n: int, d: int)
    requires 0 <= n < N && 0 <= d
    ensures HasBlock(N * d, n, d)
  {
    MulMono(n + 1, N, d);
  }

  /** Stores block n and leaves every other block alone. */
  method StoreBlock(buf: array2<real>, n: nat, d: nat, blk: Matrix)
    requires HasBlock(buf.Length0, n, d) && IsMatrix(blk, d, buf.Length1)
    modifies buf
    ensures forall i, j | 0 <= i < d && 0 <= j < buf.Length1 :: At(BlockOf(buf, n, d), i, j) == At(blk, i, j)
    ensures forall m | HasBlock(buf.Length0, m, d) && m != n :: BlockOf(buf, m, d) == old(BlockOf(buf, m, d))
  {
    var lo := n * d;
    WriteRows(buf, lo, blk);
    forall m | HasBlock(buf.Length0, m, d) && m != n ensures BlockOf(buf, m, d) == old(BlockOf(buf, m, d)) {
      forall i, j | 0 <= i < d && 0 <= j < buf.Length1
        ensures BlockOf(buf, m, d)[i][j] == old(BlockOf(buf, m, d))[i][j]
      {
        BlocksApart(m, n, d);
      }
      assert forall i | 0 <= i < d :: BlockOf(buf, m, d)[i] == old(BlockOf(buf, m, d))[i];
    }
  }
}
