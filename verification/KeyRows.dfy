/** a4_keyrow_probe.py: the output kernel without a state carry, blocked over
    value columns, head columns and key rows. The decay and the within-chunk
    product are contracted key-row block by key-row block; masking distributes
    over the head-block sum, so no full score matrix is ever built. */
module KeyRows {
  import opened Tensor
  import opened Gla
  import opened Chunk
  import opened ChunkForward
  import opened Restructured
  import opened KernelBuffers
  import opened HeadBlocks

  // ---------------------------------------------------------------------
  // The decay, contraction-blocked
  // ---------------------------------------------------------------------

  /** Product of the gates of key rows r0 .. r1 - 1 that row t may see: the
      exponential of tril[t, r0:r1] @ log a[r0:r1]. */
  function Masked(x: Gla, lo: int, t: int, i: int, r0: int, r1: int): real
    decreases r1 - r0
  {
    if r1 <= r0 then 1.0 else Masked(x, lo, t, i, r0, r1 - 1) * (if r1 - 1 <= t then x.a(lo + r1 - 1, i) else 1.0)
  }

  lemma MaskedLast(x: Gla, lo: int, t: int, i: int, r0: int, r1: int)
    requires r0 < r1
    ensures Masked(x, lo, t, i, r0, r1)
      == Masked(x, lo, t, i, r0, r1 - 1) * (if r1 - 1 <= t then x.a(lo + r1 - 1, i) else 1.0)
  {}

  lemma SplitStep(front: real, mid: real, whole: real, g: real, mid': real, whole': real)
    requires whole == front * mid && whole' == whole * g && mid' == mid * g
    ensures whole' == front * mid'
  {
    Assoc(front, mid, g);
  }

  lemma MaskedNone(x: Gla, lo: int, t: int, i: int, r: int)
    ensures Masked(x, lo, t, i, r, r) == 1.0
  {}

  lemma {:induction false} MaskedSplit(x: Gla, lo: int, t: int, i: int, r0: int, r1: int)
    requires 0 <= r0 <= r1
    ensures Masked(x, lo, t, i, 0, r1) == Masked(x, lo, t, i, 0, r0) * Masked(x, lo, t, i, r0, r1)
    decreases r1 - r0
  {
    hide Gla.a, Masked;
    if r0 < r1 {
      MaskedSplit(x, lo, t, i, r0, r1 - 1);
      MaskedLast(x, lo, t, i, 0, r1);
      MaskedLast(x, lo, t, i, r0, r1);
      SplitStep(Masked(x, lo, t, i, 0, r0), Masked(x, lo, t, i, r0, r1 - 1), Masked(x, lo, t, i, 0, r1 - 1),
        if r1 - 1 <= t then x.a(lo + r1 - 1, i) else 1.0, Masked(x, lo, t, i, r0, r1), Masked(x, lo, t, i, 0, r1));
    } else {
      MaskedNone(x, lo, t, i, r0);
    }
  }

  /** All key rows together: the inclusive decay of row t. */
  lemma {:induction false} MaskedDecay(x: Gla, lo: int, t: int, i: int, r: int)
    requires 0 <= t && 0 <= r
    ensures Masked(x, lo, t, i, 0, r) == Decay(x, lo, lo + if r <= t + 1 then r else t + 1, i)
    decreases r
  {
    if 0 < r { MaskedDecay(x, lo, t, i, r - 1); }
  }

  /** b of one head block, accumulated over the key-row blocks. */
  method BlockDecay(x: Gla, C: nat, NC: nat, lo: nat, dof: nat, BK: nat) returns (b: Matrix)
    requires 0 < NC && C % NC == 0
    ensures IsMatrix(b, C, BK)
    ensures forall t, i | 0 <= t < C && 0 <= i < BK :: At(b, t, i) == Decay(x, lo, lo + t + 1, dof + i)
  {
    hide At, Masked, Decay;
    var BC, rof := C / NC, 0;
    b := Tab(C, BK, (_, _) => 1.0);
    DecayStart(x, C, lo, dof, BK, b);
    for r := 0 to NC
      invariant rof == r * BC && IsMatrix(b, C, BK)
      invariant forall t, i | 0 <= t < C && 0 <= i < BK :: At(b, t, i) == Masked(x, lo, t, dof + i, 0, rof)
    {
      BlockEnd(C, NC, r);
      var next := Tab(C, BK, (t, i) => At(b, t, i) * Masked(x, lo, t, dof + i, rof, rof + BC));
      forall t, i | 0 <= t < C && 0 <= i < BK ensures At(next, t, i) == Masked(x, lo, t, dof + i, 0, rof + BC) {
        MaskedSplit(x, lo, t, dof + i, rof, rof + BC);
      }
      b := next;
      rof := rof + BC;
    }
    BlockEnd(C, NC, NC - 1);
    forall t, i | 0 <= t < C && 0 <= i < BK ensures At(b, t, i) == Decay(x, lo, lo + t + 1, dof + i) {
      MaskedDecay(x, lo, t, dof + i, C);
    }
  }

  lemma DecayStart(x: Gla, C: nat, lo: nat, dof: nat, BK: nat, b: Matrix)
    requires b == Tab(C, BK, (_, _) => 1.0)
    ensures forall t, i | 0 <= t < C && 0 <= i < BK :: At(b, t, i) == Masked(x, lo, t, dof + i, 0, 0)
  {}

  // ---------------------------------------------------------------------
  // The output of one chunk and one value block
  // ---------------------------------------------------------------------

  /** Within-chunk term of the first m key rows, with the first n head columns
      contracted: sum_s (score * tril)[t, s] v[s, j]. */
  function Within(x: Gla, ch: Chunk, lo: int, t: int, j: int, n: int, m: int): real {
    Sum(0, m, s => Score(ch, t, s, n) * Tril(t, s) * x.v(lo + s, j))
  }

  /** The same for one head block only. */
  function WithinBlock(x: Gla, ch: Chunk, lo: int, t: int, j: int, dof: int, BK: int, r0: int, r1: int): real {
    Sum(r0, r1, s => ScoreBlock(ch, t, s, dof, BK) * Tril(t, s) * x.v(lo + s, j))
  }

  /** qt_b = q_b * b_b and kb_b = k_b / b_b of one head block. */
  datatype HeadTile = HeadTile(qt: Matrix, kin: Matrix)

  function TileOf(x: Gla, lo: int, C: nat, b: Matrix, dof: int, BK: nat): HeadTile {
    HeadTile(Tab(C, BK, (t, i) => x.q(lo + t, dof + i) * At(b, t, i)),
             Tab(C, BK, (t, i) => Quot(x.k(lo + t, dof + i), At(b, t, i))))
  }

  ghost predicate Columns(ch: Chunk, h: HeadTile, C: nat, dof: int, BK: int) {
    && (forall t, i | 0 <= t < C && 0 <= i < BK :: At(h.qt, t, i) == At(ch.qt, t, dof + i))
    && (forall t, i | 0 <= t < C && 0 <= i < BK :: At(h.kin, t, i) == At(ch.kin, t, dof + i))
  }

  /** The tile of a head block is those columns of the chunk's qt and kin. */
  lemma TileIsColumns(x: Gla, lo: int, C: nat, b: Matrix, dof: int, BK: nat)
    requires 0 <= dof && dof + BK <= x.dk
    requires forall t, i | 0 <= t < C && 0 <= i < BK :: At(b, t, i) == Decay(x, lo, lo + t + 1, dof + i)
    ensures Columns(Recompute(x, lo, C), TileOf(x, lo, C, b, dof, BK), C, dof, BK)
  {
    hide At, Recompute, Decay, Quot, Gla.q, Gla.k;
    var h, ch := TileOf(x, lo, C, b, dof, BK), Recompute(x, lo, C);
    forall t, i | 0 <= t < C && 0 <= i < BK
      ensures At(h.qt, t, i) == At(ch.qt, t, dof + i) && At(h.kin, t, i) == At(ch.kin, t, dof + i)
    {
      RecomputeAt(x, lo, C, t, dof + i);
    }
  }

  function TileScore(h: HeadTile, t: int, s: int, BK: int): real {
    Sum(0, BK, i => At(h.qt, t, i) * At(h.kin, s, i))
  }

  function TileInter(h: HeadTile, blk: Matrix, t: int, j: int, BK: int): real {
    Sum(0, BK, i => At(h.qt, t, i) * At(blk, i, j))
  }

  lemma TileScoreIs(ch: Chunk, h: HeadTile, C: nat, dof: int, BK: nat, t: int, s: int)
    requires Columns(ch, h, C, dof, BK) && 0 <= t < C && 0 <= s < C
    ensures TileScore(h, t, s, BK) == ScoreBlock(ch, t, s, dof, BK)
  {
    hide At;
    SumExt(0, BK, i => At(h.qt, t, i) * At(h.kin, s, i), i => At(ch.qt, t, dof + i) * At(ch.kin, s, dof + i));
  }

  /** ((qt_b @ kbt_r) * tril_r) @ v_r for the key rows rof .. rof + BC. */
  function KeyRowTile(x: Gla, h: HeadTile, lo: int, t: int, j: int, BK: int, rof: int, BC: int): real {
    Sum(0, BC, s => TileScore(h, t, rof + s, BK) * Tril(t, rof + s) * x.v(lo + (rof + s), j))
  }

  lemma KeyRowStep(x: Gla, ch: Chunk, h: HeadTile, C: nat, lo: int, t: int, j: int, dof: int, BK: nat, rof: int,
                   BC: nat)
    requires Columns(ch, h, C, dof, BK) && 0 <= t < C && 0 <= rof && rof + BC <= C
    ensures WithinBlock(x, ch, lo, t, j, dof, BK, 0, rof) + KeyRowTile(x, h, lo, t, j, BK, rof, BC)
         == WithinBlock(x, ch, lo, t, j, dof, BK, 0, rof + BC)
  {
    hide Sum, ScoreBlock, TileScore, Tril, Gla.v, Columns;
    var f := (s: int) => ScoreBlock(ch, t, s, dof, BK) * Tril(t, s) * x.v(lo + s, j);
    var g := (s: int) => TileScore(h, t, rof + s, BK) * Tril(t, rof + s) * x.v(lo + (rof + s), j);
    SumSplit(0, rof, rof + BC, f);
    forall s | 0 <= s < BC ensures g(s) == f(s + rof) {
      TileScoreIs(ch, h, C, dof, BK, t, rof + s);
    }
    SumShift(0, BC, rof, f, g);
  }

  /** Masking is linear: it distributes over the sum of head blocks. */
  lemma MaskingDistributes(x: Gla, ch: Chunk, lo: int, t: int, j: int, dof: int, BK: nat, C: nat)
    requires 0 <= dof
    ensures Within(x, ch, lo, t, j, dof, C) + WithinBlock(x, ch, lo, t, j, dof, BK, 0, C)
      == Within(x, ch, lo, t, j, dof + BK, C)
  {
    hide Sum, Score, ScoreBlock, Tril, Gla.v;
    var f := (s: int) => Score(ch, t, s, dof) * Tril(t, s) * x.v(lo + s, j);
    var g := (s: int) => ScoreBlock(ch, t, s, dof, BK) * Tril(t, s) * x.v(lo + s, j);
    var h := (s: int) => Score(ch, t, s, dof + BK) * Tril(t, s) * x.v(lo + s, j);
    forall s | 0 <= s < C ensures h(s) == f(s) + g(s) {
      ScoreStep(ch, t, s, dof, BK);
      MaskAlgebra(Score(ch, t, s, dof), ScoreBlock(ch, t, s, dof, BK), Tril(t, s), x.v(lo + s, j));
    }
    SumAdd(0, C, f, g, h);
  }

  lemma MaskAlgebra(a: real, b: real, m: real, v: real)
    ensures (a + b) * m * v == a * m * v + b * m * v
  {}

  lemma WithinIs(x: Gla, lo: int, C: nat, t: int, j: int)
    requires 0 <= t < C
    ensures Within(x, Recompute(x, lo, C), lo, t, j, x.dk, C) == IntraOut(x, Recompute(x, lo, C), lo, C, t, j)
  {
    hide At, Score, Recompute, IntraOut, Gla.v;
    var ch := Recompute(x, lo, C);
    var acc := Tab(C, C, (a, s) => Score(ch, a, s, x.dk));
    SumExt(0, C, s => Score(ch, t, s, x.dk) * Tril(t, s) * x.v(lo + s, j),
      s => At(acc, t, s) * Tril(t, s) * x.v(lo + s, j));
    MaskedOutIs(x, lo, C, acc, t, j);
  }

  lemma WithinNone(x: Gla, ch: Chunk, lo: int, t: int, j: int, C: nat)
    ensures Within(x, ch, lo, t, j, 0, C) == 0.0
  {
    hide Tril, Gla.v, At;
    SumZero(0, C, s => Score(ch, t, s, 0) * Tril(t, s) * x.v(lo + s, j));
  }

  /** o_acc after the first n head columns, for value columns vof .. vof + BV. */
  ghost predicate OutAcc(x: Gla, ch: Chunk, H: Matrix, lo: int, C: nat, vof: int, BV: nat, o: Matrix, n: int) {
    IsMatrix(o, C, BV)
    && forall t, j | 0 <= t < C && 0 <= j < BV ::
         At(o, t, j) == Inter(ch, H, t, vof + j, n) + Within(x, ch, lo, t, vof + j, n, C)
  }

  /** ... and after the state term and the first m key rows of the head block at dof. */
  ghost predicate TileAcc(x: Gla, ch: Chunk, H: Matrix, lo: int, C: nat, vof: int, BV: nat, o: Matrix, dof: int,
                          BK: nat, m: int) {
    IsMatrix(o, C, BV)
    && forall t, j | 0 <= t < C && 0 <= j < BV ::
      At(o, t, j)
        == Inter(ch, H, t, vof + j, dof + BK) + Within(x, ch, lo, t, vof + j, dof, C)
        + WithinBlock(x, ch, lo, t, vof + j, dof, BK, 0, m)
  }

  lemma AccStart(x: Gla, ch: Chunk, H: Matrix, lo: int, C: nat, vof: int, BV: nat)
    ensures OutAcc(x, ch, H, lo, C, vof, BV, Zeros(C, BV), 0)
  {
    hide Within, At;
    var o := Zeros(C, BV);
    forall t, j | 0 <= t < C && 0 <= j < BV
      ensures At(o, t, j) == Inter(ch, H, t, vof + j, 0) + Within(x, ch, lo, t, vof + j, 0, C)
    {
      WithinNone(x, ch, lo, t, vof + j, C);
    }
  }

  function StateTile(h: HeadTile, C: nat, BV: nat, o: Matrix, blk: Matrix, BK: int): Matrix {
    Tab(C, BV, (t, j) => At(o, t, j) + TileInter(h, blk, t, j, BK))
  }

  lemma StateTileStep(x: Gla, ch: Chunk, h: HeadTile, H: Matrix, lo: int, C: nat, vof: int, BV: nat, o: Matrix,
                      blk: Matrix, dof: int, BK: nat)
    requires 0 <= dof && OutAcc(x, ch, H, lo, C, vof, BV, o, dof) && Columns(ch, h, C, dof, BK)
    requires forall i, j | 0 <= i < BK && 0 <= j < BV :: At(blk, i, j) == At(H, dof + i, vof + j)
    ensures TileAcc(x, ch, H, lo, C, vof, BV, StateTile(h, C, BV, o, blk, BK), dof, BK, 0)
  {
    hide At, Inter, Within, TileInter, Columns;
    var m := StateTile(h, C, BV, o, blk, BK);
    forall t, j | 0 <= t < C && 0 <= j < BV
      ensures At(m, t, j) == Inter(ch, H, t, vof + j, dof + BK) + Within(x, ch, lo, t, vof + j, dof, C)
    {
      TileInterStep(ch, h, H, blk, C, t, vof, j, dof, BK);
    }
  }

  lemma TileInterStep(ch: Chunk, h: HeadTile, H: Matrix, blk: Matrix, C: nat, t: int, vof: int, j: int, dof: int,
                      BK: nat)
    requires Columns(ch, h, C, dof, BK) && 0 <= t < C && 0 <= dof
    requires forall i | 0 <= i < BK :: At(blk, i, j) == At(H, dof + i, vof + j)
    ensures Inter(ch, H, t, vof + j, dof) + TileInter(h, blk, t, j, BK) == Inter(ch, H, t, vof + j, dof + BK)
  {
    hide At, Sum;
    var f := (i: int) => At(ch.qt, t, i) * At(H, i, vof + j);
    SumSplit(0, dof, dof + BK, f);
    SumShift(0, BK, dof, f, i => At(h.qt, t, i) * At(blk, i, j));
  }

  function KeyRowAdd(x: Gla, h: HeadTile, lo: int, C: nat, vof: int, BV: nat, o: Matrix, BK: int, rof: int,
                     BC: int): Matrix {
    Tab(C, BV, (t, j) => At(o, t, j) + KeyRowTile(x, h, lo, t, vof + j, BK, rof, BC))
  }

  lemma KeyRowAdded(x: Gla, ch: Chunk, h: HeadTile, H: Matrix, lo: int, C: nat, vof: int, BV: nat, o: Matrix, dof: int,
                    BK: nat, rof: int, BC: nat)
    requires 0 <= rof && rof + BC <= C && Columns(ch, h, C, dof, BK)
    requires TileAcc(x, ch, H, lo, C, vof, BV, o, dof, BK, rof)
    ensures TileAcc(x, ch, H, lo, C, vof, BV, KeyRowAdd(x, h, lo, C, vof, BV, o, BK, rof, BC), dof, BK, rof + BC)
  {
    hide At, Inter, Within, WithinBlock, KeyRowTile, Columns;
    var m := KeyRowAdd(x, h, lo, C, vof, BV, o, BK, rof, BC);
    forall t, j | 0 <= t < C && 0 <= j < BV
      ensures At(m, t, j)
        == Inter(ch, H, t, vof + j, dof + BK) + Within(x, ch, lo, t, vof + j, dof, C)
        + WithinBlock(x, ch, lo, t, vof + j, dof, BK, 0, rof + BC)
    {
      KeyRowStep(x, ch, h, C, lo, t, vof + j, dof, BK, rof, BC);
    }
  }

  lemma TileDone(x: Gla, ch: Chunk, H: Matrix, lo: int, C: nat, vof: int, BV: nat, o: Matrix, dof: int, BK: nat)
    requires 0 <= dof && TileAcc(x, ch, H, lo, C, vof, BV, o, dof, BK, C)
    ensures OutAcc(x, ch, H, lo, C, vof, BV, o, dof + BK)
  {
    hide At, Inter, Within, WithinBlock;
    forall t, j | 0 <= t < C && 0 <= j < BV
      ensures At(o, t, j) == Inter(ch, H, t, vof + j, dof + BK) + Within(x, ch, lo, t, vof + j, dof + BK, C)
    {
      MaskingDistributes(x, ch, lo, t, vof + j, dof, BK, C);
    }
  }

  /** The within-chunk loop of one head block. */
  method KeyRowLoop(x: Gla, C: nat, NC: nat, lo: nat, ghost ch: Chunk, h: HeadTile, ghost H: Matrix, vof: nat, BV: nat,
                    oSt: Matrix, ghost dof: nat, BK: nat)
    returns (o: Matrix)
    requires 0 < NC && C % NC == 0 && Columns(ch, h, C, dof, BK) && TileAcc(x, ch, H, lo, C, vof, BV, oSt, dof, BK, 0)
    ensures OutAcc(x, ch, H, lo, C, vof, BV, o, dof + BK)
  {
    hide TileAcc, KeyRowAdd, OutAcc, Columns;
    var BC, rof := C / NC, 0;
    o := oSt;
    for r2 := 0 to NC
      invariant rof == r2 * BC && TileAcc(x, ch, H, lo, C, vof, BV, o, dof, BK, rof)
    {
      BlockEnd(C, NC, r2);
      KeyRowAdded(x, ch, h, H, lo, C, vof, BV, o, dof, BK, rof, BC);
      o := KeyRowAdd(x, h, lo, C, vof, BV, o, BK, rof, BC);
      rof := rof + BC;
    }
    BlockEnd(C, NC, NC - 1);
    TileDone(x, ch, H, lo, C, vof, BV, o, dof, BK);
  }

  /** One output tile: chunk at lo, value columns vof .. vof + BV. The state of
      each head block is rebuilt from its snapshot, decay and the boundary. */
  method OutTile(x: Gla, C: nat, NB: nat, NC: nat, lo: nat, sprev: Matrix, gprev: Vector, bnd: Matrix, vof: nat,
                 BV: nat)
    returns (o: Matrix)
    requires 0 < NB && x.dk % NB == 0 && 0 < NC && C % NC == 0 && vof + BV <= x.dv
    ensures OutAcc(x, Recompute(x, lo, C), History(x, sprev, gprev, bnd), lo, C, vof, BV, o, x.dk)
  {
    hide OutAcc, TileAcc, StateTile, Recompute, At, El, Columns, TileOf;
    ghost var H, ch := History(x, sprev, gprev, bnd), Recompute(x, lo, C);
    var BK, dof := x.dk / NB, 0;
    o := Zeros(C, BV);
    AccStart(x, ch, H, lo, C, vof, BV);
    for j := 0 to NB
      invariant dof == j * BK && OutAcc(x, ch, H, lo, C, vof, BV, o, dof)
    {
      BlockEnd(x.dk, NB, j);
      var b := BlockDecay(x, C, NC, lo, dof, BK);
      TileIsColumns(x, lo, C, b, dof, BK);
      var h := TileOf(x, lo, C, b, dof, BK);
      var blk := Tab(BK, BV, (i, c) => At(sprev, dof + i, vof + c) + El(gprev, dof + i) * At(bnd, dof + i, vof + c));
      StateTileStep(x, ch, h, H, lo, C, vof, BV, o, blk, dof, BK);
      o := KeyRowLoop(x, C, NC, lo, ch, h, H, vof, BV, StateTile(h, C, BV, o, blk, BK), dof, BK);
      dof := dof + BK;
    }
    BlockEnd(x.dk, NB, NB - 1);
  }

  // ---------------------------------------------------------------------
  // All chunks and value blocks
  // ---------------------------------------------------------------------

  /** out[off : off + C, vof : vof + BV] = o */
  method StoreTile(O: array2<real>, off: nat, vof: nat, C: nat, BV: nat, o: Matrix)
    requires off + C <= O.Length0 && vof + BV <= O.Length1
    modifies O
    ensures forall t, j | 0 <= t < O.Length0 && 0 <= j < O.Length1 ::
      O[t, j] == if off <= t < off + C && vof <= j < vof + BV then At(o, t - off, j - vof) else old(O[t, j])
  {
    hide At;
    forall t, j | off <= t < off + C && vof <= j < vof + BV {
      O[t, j] := At(o, t - off, j - vof);
    }
  }

  /** Chunks before lo are complete; in the chunk at lo, the columns before vof. */
  ghost predicate TilesDone(x: Gla, B: Matrix, O: array2<real>, lo: int, C: nat, vof: int)
    reads O
  {
    O.Length0 == x.T && O.Length1 == x.dv
    && forall t, j | 0 <= t < x.T && 0 <= j < x.dv && (t < lo || (t < lo + C && j < vof)) :: O[t, j] == Out(x, B, t, j)
  }

  method PutTile(x: Gla, C: nat, ghost B: Matrix, ghost H: Matrix, lo: nat, vof: nat, BV: nat, o: Matrix,
                 O: array2<real>)
    requires Chunked(x, C) && lo + C <= x.T && vof + BV <= x.dv && HoldsState(x, B, H, lo)
    requires OutAcc(x, Recompute(x, lo, C), H, lo, C, vof, BV, o, x.dk) && TilesDone(x, B, O, lo, C, vof)
    modifies O
    ensures TilesDone(x, B, O, lo, C, vof + BV)
  {
    hide Recompute, Out, At, HoldsState, Within, IntraOut;
    StoreTile(O, lo, vof, C, BV, o);
    forall t, j | lo <= t < lo + C && vof <= j < vof + BV ensures O[t, j] == Out(x, B, t, j) {
      WithinIs(x, lo, C, t - lo, j);
      ChunkOutput(x, B, lo, C, H, t - lo, j);
      assert At(o, t - lo, j - vof)
        == Inter(Recompute(x, lo, C), H, t - lo, vof + (j - vof), x.dk)
        + Within(x, Recompute(x, lo, C), lo, t - lo, vof + (j - vof), x.dk, C);
    }
  }

  /** The value blocks of one chunk. */
  method ScanValues(x: Gla, C: nat, NB: nat, NC: nat, NV: nat, bnd: Matrix, Ssnap: array2<real>, Gsnap: array2<real>,
                    n: nat, lo: nat, O: array2<real>)
    requires Chunked(x, C) && 0 < NB && x.dk % NB == 0 && 0 < NC && C % NC == 0 && 0 < NV && x.dv % NV == 0
    requires n < x.T / C && lo == n * C && lo + C <= x.T && O != Ssnap && O != Gsnap
    requires SnapshotsIn(x, C, Ssnap, Gsnap, x.T / C) && TilesDone(x, bnd, O, lo, C, 0)
    modifies O
    ensures TilesDone(x, bnd, O, lo + C, C, 0)
  {
    hide TilesDone, OutAcc, SnapshotsIn, HoldsState, HoldsLocal, HoldsDecay, History, Recompute, Gla.Valid,
      Gla.GatesNonZero;
    var vof, BV := 0, x.dv / NV;
    for w := 0 to NV
      invariant vof == w * BV && SnapshotsIn(x, C, Ssnap, Gsnap, x.T / C) && TilesDone(x, bnd, O, lo, C, vof)
    {
      BlockEnd(x.dv, NV, w);
      var sprev, gprev := LoadSnapshot(x, C, Ssnap, Gsnap, n);
      HistoryHolds(x, sprev, gprev, bnd, lo);
      var o := OutTile(x, C, NB, NC, lo, sprev, gprev, bnd, vof, BV);
      PutTile(x, C, bnd, History(x, sprev, gprev, bnd), lo, vof, BV, o, O);
      vof := vof + BV;
    }
    BlockEnd(x.dv, NV, NV - 1);
    ChunkTiles(x, bnd, O, lo, C);
  }

  /** scan of a4_keyrow_probe.py, on the snapshots of a forward walk from zero:
      the outputs of the token recurrence from the boundary. */
  method Scan(x: Gla, C: nat, NB: nat, NC: nat, NV: nat, bnd: Matrix, Ssnap: array2<real>, Gsnap: array2<real>,
              O: array2<real>)
    requires Chunked(x, C) && 0 < NB && x.dk % NB == 0 && 0 < NC && C % NC == 0 && 0 < NV && x.dv % NV == 0
    requires SnapshotsIn(x, C, Ssnap, Gsnap, x.T / C) && O.Length0 == x.T && O.Length1 == x.dv && O != Ssnap
    requires O != Gsnap
    modifies O
    ensures HoldsOut(x, bnd, O, x.T)
  {
    hide TilesDone, SnapshotsIn, HoldsOut, Gla.Valid, Gla.GatesNonZero;
    var lo, N := 0, x.T / C;
    ChunksCover(x.T, C);
    NoTiles(x, bnd, O, C);
    for n := 0 to N
      invariant lo == n * C && SnapshotsIn(x, C, Ssnap, Gsnap, N) && TilesDone(x, bnd, O, lo, C, 0)
    {
      ChunkBounds(x.T, C, n);
      ScanValues(x, C, NB, NC, NV, bnd, Ssnap, Gsnap, n, lo, O);
      lo := lo + C;
    }
    AllTiles(x, bnd, O, C);
  }

  lemma NoTiles(x: Gla, B: Matrix, O: array2<real>, C: nat)
    requires O.Length0 == x.T && O.Length1 == x.dv
    ensures TilesDone(x, B, O, 0, C, 0)
  {}

  lemma ChunkTiles(x: Gla, B: Matrix, O: array2<real>, lo: int, C: nat)
    requires TilesDone(x, B, O, lo, C, x.dv)
    ensures TilesDone(x, B, O, lo + C, C, 0)
  {
    hide Out;
  }

  lemma AllTiles(x: Gla, B: Matrix, O: array2<real>, C: nat)
    requires TilesDone(x, B, O, x.T, C, 0)
    ensures O.Length0 == x.T && O.Length1 == x.dv && HoldsOut(x, B, O, x.T)
  {
    hide Out;
  }

  /** host_side followed by scan: the carry-free blocked kernel has the outputs
      of the unblocked golden. */
  method HostAndScan(x: Gla, C: nat, NB: nat, NC: nat, NV: nat, bnd: Matrix) returns (O: array2<real>)
    requires Chunked(x, C) && 0 < NB && x.dk % NB == 0 && 0 < NC && C % NC == 0 && 0 < NV && x.dv % NV == 0
    ensures fresh(O) && O.Length0 == x.T && O.Length1 == x.dv && HoldsOut(x, bnd, O, x.T)
  {
    hide SnapshotsIn, HoldsOut, RecomputeIs;
    var snaps, decays, _ := KRecompute(x, C);
    O := new real[x.T, x.dv]((_, _) => 0.0);
    Scan(x, C, NB, NC, NV, bnd, snaps, decays, O);
  }
}
