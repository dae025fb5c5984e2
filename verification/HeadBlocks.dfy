/** Head-dim blocking of the chunk scan: unblocked, blocked on a copied state
    (t5_math_check.py), and blocked in place on a scratch state tensor
    (t5_gmstate_probe.py). */
module HeadBlocks {
  import opened Tensor
  import opened Gla
  import opened Chunk
  import opened ChunkForward
  import opened Restructured

  // ---------------------------------------------------------------------
  // Contractions over the head dim, as sums of block partials
  // ---------------------------------------------------------------------

  /** Rows t and s of qt @ kin^T, contracted over the first n head columns. */
  function Score(ch: Chunk, t: int, s: int, n: int): real {
    Sum(0, n, i => At(ch.qt, t, i) * At(ch.kin, s, i))
  }

  function ScoreBlock(ch: Chunk, t: int, s: int, dof: int, BK: int): real {
    Sum(0, BK, i => At(ch.qt, t, dof + i) * At(ch.kin, s, dof + i))
  }

  /** qt @ S, contracted over the first n head rows. */
  function Inter(ch: Chunk, S: Matrix, t: int, j: int, n: int): real {
    Sum(0, n, i => At(ch.qt, t, i) * At(S, i, j))
  }

  function InterBlock(ch: Chunk, blk: Matrix, t: int, j: int, dof: int, BK: int): real {
    Sum(0, BK, i => At(ch.qt, t, dof + i) * At(blk, i, j))
  }

  lemma ScoreStep(ch: Chunk, t: int, s: int, dof: int, BK: nat)
    requires 0 <= dof
    ensures Score(ch, t, s, dof) + ScoreBlock(ch, t, s, dof, BK) == Score(ch, t, s, dof + BK)
  {
    hide At, Sum;
    var f := (i: int) => At(ch.qt, t, i) * At(ch.kin, s, i);
    SumSplit(0, dof, dof + BK, f);
    SumShift(0, BK, dof, f, i => At(ch.qt, t, dof + i) * At(ch.kin, s, dof + i));
  }

  lemma InterStep(ch: Chunk, S: Matrix, blk: Matrix, t: int, j: int, dof: int, BK: nat)
    requires 0 <= dof && forall i | 0 <= i < BK :: At(blk, i, j) == At(S, dof + i, j)
    ensures Inter(ch, S, t, j, dof) + InterBlock(ch, blk, t, j, dof, BK) == Inter(ch, S, t, j, dof + BK)
  {
    hide At, Sum;
    var f := (i: int) => At(ch.qt, t, i) * At(S, i, j);
    SumSplit(0, dof, dof + BK, f);
    SumShift(0, BK, dof, f, i => At(ch.qt, t, dof + i) * At(blk, i, j));
  }

  function Tril(t: int, s: int): real {
    if s <= t then 1.0 else 0.0
  }

  /** ((scores * tril) @ v)[t, j] */
  function MaskedOut(x: Gla, acc: Matrix, lo: int, C: nat, t: int, j: int): real {
    Sum(0, C, s => At(acc, t, s) * Tril(t, s) * x.v(lo + s, j))
  }

  /** Masking the summed scores gives the within-chunk output. */
  lemma MaskedOutIs(x: Gla, lo: int, C: nat, acc: Matrix, t: int, j: int)
    requires 0 <= t < C && forall s | 0 <= s < C :: At(acc, t, s) == Score(Recompute(x, lo, C), t, s, x.dk)
    ensures MaskedOut(x, acc, lo, C, t, j) == IntraOut(x, Recompute(x, lo, C), lo, C, t, j)
  {
    hide At, Sum, Gla.v, Recompute;
    var ch := Recompute(x, lo, C);
    var f := (s: int) => At(acc, t, s) * Tril(t, s) * x.v(lo + s, j);
    var h := (s: int) => At(ch.scores, t, s) * x.v(lo + s, j);
    forall s | 0 <= s < C ensures f(s) == h(s) {
      ScoreAt(x, lo, C, t, s);
      SumExt(0, x.dk, i => At(ch.qt, t, i) * At(ch.kin, s, i),
        i => At(Recompute(x, lo, C).qt, t, i) * At(Recompute(x, lo, C).kin, s, i));
      MaskCell(At(acc, t, s), Tril(t, s), x.v(lo + s, j));
    }
    SumExt(0, C, f, h);
  }

  lemma MaskCell(a: real, m: real, v: real)
    ensures m == 1.0 ==> a * m * v == a * v
    ensures m == 0.0 ==> a * m * v == 0.0 * v
  {}

  /** gamma * (S + kin^T @ v) advances the state of a run from boundary B. */
  lemma ScaledAdvanceState(x: Gla, B: Matrix, S: Matrix, lo: int, C: nat)
    requires Chunked(x, C) && 0 <= lo && lo + C <= x.T && HoldsState(x, B, S, lo)
    ensures HoldsState(x, B, ScaledAdvance(x, Recompute(x, lo, C), S, lo, C), lo + C)
  {
    hide State, Decay, At, El, Recompute, KV, Sum;
    var ch := Recompute(x, lo, C);
    forall i, j | 0 <= i < x.dk && 0 <= j < x.dv
      ensures At(ScaledAdvance(x, ch, S, lo, C), i, j) == State(x, 0, At(B, i, j), lo + C, i, j)
    {
      RecomputeAt(x, lo, C, 0, i);
      KinV(x, lo, C, C, i, j);
      StateClosed(x, lo, At(S, i, j), C, i, j);
      StateResume(x, 0, lo, At(B, i, j), lo + C, i, j);
    }
  }

  lemma StartState(x: Gla, B: Matrix)
    ensures HoldsState(x, B, B, 0)
  {}

  // ---------------------------------------------------------------------
  // The unblocked scan
  // ---------------------------------------------------------------------

  /** O[lo:hi] = qt @ S + (scores * tril) @ v, from the accumulated tiles. */
  method StoreOut(x: Gla, C: nat, lo: nat, ghost B: Matrix, ghost S: Matrix, inter: Matrix, acc: Matrix,
                  O: array2<real>)
    requires Chunked(x, C) && lo + C <= x.T && HoldsState(x, B, S, lo)
    requires O.Length0 == x.T && O.Length1 == x.dv && HoldsOut(x, B, O, lo)
    requires forall t, j | 0 <= t < C && 0 <= j < x.dv :: At(inter, t, j) == Inter(Recompute(x, lo, C), S, t, j, x.dk)
    requires forall t, s | 0 <= t < C && 0 <= s < C :: At(acc, t, s) == Score(Recompute(x, lo, C), t, s, x.dk)
    modifies O
    ensures HoldsOut(x, B, O, lo + C)
  {
    hide At, Recompute, Out, HoldsState, Score, MaskedOut, IntraOut;
    forall t, j | lo <= t < lo + C && 0 <= j < x.dv {
      O[t, j] := At(inter, t - lo, j) + MaskedOut(x, acc, lo, C, t - lo, j);
    }
    forall t, j | lo <= t < lo + C && 0 <= j < x.dv ensures O[t, j] == Out(x, B, t, j) {
      MaskedOutIs(x, lo, C, acc, t - lo, j);
      ChunkOutput(x, B, lo, C, S, t - lo, j);
    }
  }

  /** unblocked (the golden of the blocking probes) */
  method Unblocked(x: Gla, C: nat, B: Matrix) returns (O: array2<real>, S: Matrix)
    requires Chunked(x, C)
    ensures fresh(O) && O.Length0 == x.T && O.Length1 == x.dv && HoldsOut(x, B, O, x.T) && HoldsState(x, B, S, x.T)
    ensures IsMatrix(B, x.dk, x.dv) ==> IsMatrix(S, x.dk, x.dv)
  {
    hide HoldsState, HoldsOut, Recompute, ScaledAdvance, Score, Inter;
    O := new real[x.T, x.dv]((_, _) => 0.0);
    OutStart(x, B, O);
    S := B;
    StartState(x, B);
    var lo, N := 0, x.T / C;
    ChunksCover(x.T, C);
    for n := 0 to N
      invariant lo == n * C && HoldsOut(x, B, O, lo) && HoldsState(x, B, S, lo)
      invariant IsMatrix(B, x.dk, x.dv) ==> IsMatrix(S, x.dk, x.dv)
    {
      ChunkBounds(x.T, C, n);
      var ch := Recompute(x, lo, C);
      var acc := Tab(C, C, (t, s) => Score(ch, t, s, x.dk));
      var inter := Tab(C, x.dv, (t, j) => Inter(ch, S, t, j, x.dk));
      StoreOut(x, C, lo, B, S, inter, acc, O);
      ScaledAdvanceState(x, B, S, lo, C);
      AdvanceShape(x, ch, S, lo, C);
      S := ScaledAdvance(x, ch, S, lo, C);
      lo := lo + C;
    }
  }

  lemma OutStart(x: Gla, B: Matrix, O: array2<real>)
    requires O.Length0 == x.T && O.Length1 == x.dv
    ensures HoldsOut(x, B, O, 0)
  {}

  // ---------------------------------------------------------------------
  // One chunk, block by block
  // ---------------------------------------------------------------------

  /** acc and inter hold the partials of the first n head columns. */
  ghost predicate Partials(x: Gla, ch: Chunk, S: Matrix, C: nat, acc: Matrix, inter: Matrix, n: int) {
    && (forall t, s | 0 <= t < C && 0 <= s < C :: At(acc, t, s) == Score(ch, t, s, n))
    && (forall t, j | 0 <= t < C && 0 <= j < x.dv :: At(inter, t, j) == Inter(ch, S, t, j, n))
  }

  function AddScore(ch: Chunk, C: nat, acc: Matrix, dof: int, BK: int): Matrix {
    Tab(C, C, (t, s) => At(acc, t, s) + ScoreBlock(ch, t, s, dof, BK))
  }

  function AddInter(x: Gla, ch: Chunk, C: nat, inter: Matrix, blk: Matrix, dof: int, BK: int): Matrix {
    Tab(C, x.dv, (t, j) => At(inter, t, j) + InterBlock(ch, blk, t, j, dof, BK))
  }

  lemma PartialsStart(x: Gla, ch: Chunk, S: Matrix, C: nat)
    ensures Partials(x, ch, S, C, Zeros(C, C), Zeros(C, x.dv), 0)
  {}

  lemma PartialsStep(x: Gla, ch: Chunk, S: Matrix, C: nat, acc: Matrix, inter: Matrix, blk: Matrix, dof: int, BK: nat)
    requires 0 <= dof && Partials(x, ch, S, C, acc, inter, dof)
    requires forall i, j | 0 <= i < BK && 0 <= j < x.dv :: At(blk, i, j) == At(S, dof + i, j)
    ensures Partials(x, ch, S, C, AddScore(ch, C, acc, dof, BK), AddInter(x, ch, C, inter, blk, dof, BK), dof + BK)
  {
    hide At, Score, ScoreBlock, Inter, InterBlock;
    forall t, s | 0 <= t < C && 0 <= s < C
      ensures At(AddScore(ch, C, acc, dof, BK), t, s) == Score(ch, t, s, dof + BK)
    {
      ScoreStep(ch, t, s, dof, BK);
    }
    forall t, j | 0 <= t < C && 0 <= j < x.dv
      ensures At(AddInter(x, ch, C, inter, blk, dof, BK), t, j) == Inter(ch, S, t, j, dof + BK)
    {
      InterStep(ch, S, blk, t, j, dof, BK);
    }
  }

  /** gamma_b * (S[d, :] + kin_b^T @ v) for head rows dof .. dof + BK */
  function AdvanceBlock(x: Gla, ch: Chunk, blk: Matrix, lo: int, C: nat, dof: int, BK: nat): Matrix {
    Tab(BK, x.dv, (i, j) => (At(blk, i, j) + KinDotV(x, ch, lo, C, dof + i, j)) * El(ch.gamma, dof + i))
  }

  lemma AdvanceBlockIs(x: Gla, ch: Chunk, S: Matrix, blk: Matrix, lo: int, C: nat, dof: int, BK: nat, i: int, j: int)
    requires 0 <= dof && dof + BK <= x.dk && 0 <= i < BK && 0 <= j < x.dv && At(blk, i, j) == At(S, dof + i, j)
    ensures At(AdvanceBlock(x, ch, blk, lo, C, dof, BK), i, j) == At(ScaledAdvance(x, ch, S, lo, C), dof + i, j)
  {
    hide At, El, KinDotV;
  }

  // ---------------------------------------------------------------------
  // Blocked on a copied state
  // ---------------------------------------------------------------------

  /** S_new: the rows below dof advanced, the others still the old state. */
  ghost predicate HalfDone(x: Gla, ch: Chunk, S: Matrix, Snew: Matrix, lo: int, C: nat, dof: int) {
    IsMatrix(Snew, x.dk, x.dv)
    && forall i, j | 0 <= i < x.dk && 0 <= j < x.dv ::
         At(Snew, i, j) == if i < dof then At(ScaledAdvance(x, ch, S, lo, C), i, j) else At(S, i, j)
  }

  function Slice(S: Matrix, dof: int, BK: nat, dv: nat): Matrix {
    Tab(BK, dv, (i, j) => At(S, dof + i, j))
  }

  function PutRows(m: Matrix, blk: Matrix, dof: int): Matrix
    requires 0 <= dof && dof + |blk| <= |m|
  {
    m[..dof] + blk + m[dof + |blk|..]
  }

  lemma HalfDoneStep(x: Gla, ch: Chunk, S: Matrix, Snew: Matrix, lo: int, C: nat, dof: int, BK: nat)
    requires 0 <= dof && dof + BK <= x.dk && HalfDone(x, ch, S, Snew, lo, C, dof)
    ensures HalfDone(x, ch, S, PutRows(Snew, AdvanceBlock(x, ch, Slice(S, dof, BK, x.dv), lo, C, dof, BK), dof), lo, C,
      dof + BK)
  {
    hide El, KinDotV, ScaledAdvance, AdvanceBlock;
    var blk := AdvanceBlock(x, ch, Slice(S, dof, BK, x.dv), lo, C, dof, BK);
    BlockShape(x, ch, Slice(S, dof, BK, x.dv), lo, C, dof, BK);
    var m := PutRows(Snew, blk, dof);
    forall i, j | 0 <= i < x.dk && 0 <= j < x.dv
      ensures At(m, i, j) == if i < dof + BK then At(ScaledAdvance(x, ch, S, lo, C), i, j) else At(S, i, j)
    {
      if dof <= i < dof + BK {
        assert m[i] == blk[i - dof];
        AdvanceBlockIs(x, ch, S, Slice(S, dof, BK, x.dv), lo, C, dof, BK, i - dof, j);
      } else {
        assert m[i] == Snew[i];
        assert At(m, i, j) == At(Snew, i, j);
      }
    }
  }

  lemma BlockShape(x: Gla, ch: Chunk, blk: Matrix, lo: int, C: nat, dof: int, BK: nat)
    ensures IsMatrix(AdvanceBlock(x, ch, blk, lo, C, dof, BK), BK, x.dv)
  {}

  method BlockedChunk(x: Gla, C: nat, NB: nat, lo: nat, ch: Chunk, S: Matrix)
    returns (acc: Matrix, inter: Matrix, Snew: Matrix)
    requires 0 < NB && x.dk % NB == 0 && IsMatrix(S, x.dk, x.dv)
    ensures Partials(x, ch, S, C, acc, inter, x.dk) && Snew == ScaledAdvance(x, ch, S, lo, C)
  {
    hide Partials, AddScore, AddInter, ScaledAdvance, AdvanceBlock, At, PutRows, Slice;
    var BK, dof := x.dk / NB, 0;
    acc, inter, Snew := Zeros(C, C), Zeros(C, x.dv), S;
    PartialsStart(x, ch, S, C);
    for j := 0 to NB
      invariant dof == j * BK && Partials(x, ch, S, C, acc, inter, dof) && HalfDone(x, ch, S, Snew, lo, C, dof)
    {
      BlockEnd(x.dk, NB, j);
      var blk := Slice(S, dof, BK, x.dv);
      BlockCopied(S, dof, BK, x.dv);
      PartialsStep(x, ch, S, C, acc, inter, blk, dof, BK);
      acc, inter := AddScore(ch, C, acc, dof, BK), AddInter(x, ch, C, inter, blk, dof, BK);
      HalfDoneStep(x, ch, S, Snew, lo, C, dof, BK);
      BlockShape(x, ch, blk, lo, C, dof, BK);
      Snew := PutRows(Snew, AdvanceBlock(x, ch, blk, lo, C, dof, BK), dof);
      dof := dof + BK;
    }
    BlockEnd(x.dk, NB, NB - 1);
    AdvanceShape(x, ch, S, lo, C);
    SameMatrix(Snew, ScaledAdvance(x, ch, S, lo, C), x.dk, x.dv);
  }

  lemma BlockCopied(S: Matrix, dof: int, BK: nat, dv: nat)
    ensures forall i, j | 0 <= i < BK && 0 <= j < dv :: At(Slice(S, dof, BK, dv), i, j) == At(S, dof + i, j)
  {
    hide At;
  }

  lemma AdvanceShape(x: Gla, ch: Chunk, S: Matrix, lo: int, C: nat)
    ensures IsMatrix(ScaledAdvance(x, ch, S, lo, C), x.dk, x.dv)
  {}

  /** blocked: the outputs and final state of the unblocked scan. */
  method Blocked(x: Gla, C: nat, NB: nat, B: Matrix) returns (O: array2<real>, S: Matrix)
    requires Chunked(x, C) && 0 < NB && x.dk % NB == 0 && IsMatrix(B, x.dk, x.dv)
    ensures fresh(O) && O.Length0 == x.T && O.Length1 == x.dv && HoldsOut(x, B, O, x.T) && HoldsState(x, B, S, x.T)
    ensures IsMatrix(S, x.dk, x.dv)
  {
    hide HoldsState, HoldsOut, Recompute, ScaledAdvance, Score, Inter;
    O := new real[x.T, x.dv]((_, _) => 0.0);
    OutStart(x, B, O);
    S := B;
    StartState(x, B);
    var lo, N := 0, x.T / C;
    ChunksCover(x.T, C);
    for n := 0 to N
      invariant lo == n * C && HoldsOut(x, B, O, lo) && HoldsState(x, B, S, lo) && IsMatrix(S, x.dk, x.dv)
    {
      ChunkBounds(x.T, C, n);
      var ch := Recompute(x, lo, C);
      var acc, inter, Snew := BlockedChunk(x, C, NB, lo, ch, S);
      StoreOut(x, C, lo, B, S, inter, acc, O);
      ScaledAdvanceState(x, B, S, lo, C);
      AdvanceShape(x, ch, S, lo, C);
      S := Snew;
      lo := lo + C;
    }
  }

  // ---------------------------------------------------------------------
  // Blocked in place on the scratch state
  // ---------------------------------------------------------------------

  /** The scratch tensor in the middle of a chunk: rows below dof overwritten. */
  ghost predicate Scratch(x: Gla, ch: Chunk, S: Matrix, sws: array2<real>, lo: int, C: nat, dof: int)
    reads sws
  {
    sws.Length0 == x.dk && sws.Length1 == x.dv
    && forall i, j | 0 <= i < x.dk && 0 <= j < x.dv ::
         sws[i, j] == if i < dof then At(ScaledAdvance(x, ch, S, lo, C), i, j) else At(S, i, j)
  }

  /** s_blk = sws[dof : dof + BK], read before it is overwritten. */
  method LoadBlock(x: Gla, ghost ch: Chunk, ghost S: Matrix, sws: array2<real>, ghost lo: int, ghost C: nat, dof: nat,
                   BK: nat)
    returns (blk: Matrix)
    requires Scratch(x, ch, S, sws, lo, C, dof) && dof + BK <= x.dk
    ensures forall i, j | 0 <= i < BK && 0 <= j < x.dv :: At(blk, i, j) == At(S, dof + i, j)
  {
    hide ScaledAdvance;
    blk := seq(BK, i requires 0 <= i < BK && dof + BK <= sws.Length0 reads sws =>
      seq(sws.Length1,
        j requires 0 <= j < sws.Length1 && 0 <= i < BK && dof + BK <= sws.Length0 reads sws => sws[dof + i, j]));
  }

  method OverwriteBlock(x: Gla, ch: Chunk, ghost S: Matrix, sws: array2<real>, lo: nat, C: nat, dof: nat, BK: nat,
                        blk: Matrix)
    requires Scratch(x, ch, S, sws, lo, C, dof) && dof + BK <= x.dk
    requires forall i, j | 0 <= i < BK && 0 <= j < x.dv :: At(blk, i, j) == At(S, dof + i, j)
    modifies sws
    ensures Scratch(x, ch, S, sws, lo, C, dof + BK)
  {
    hide ScaledAdvance, AdvanceBlock, At;
    var next := AdvanceBlock(x, ch, blk, lo, C, dof, BK);
    BlockShape(x, ch, blk, lo, C, dof, BK);
    WriteRows(sws, dof, next);
    forall i, j | dof <= i < dof + BK && 0 <= j < x.dv ensures sws[i, j] == At(ScaledAdvance(x, ch, S, lo, C), i, j) {
      AdvanceBlockIs(x, ch, S, blk, lo, C, dof, BK, i - dof, j);
    }
  }

  method ScratchChunk(x: Gla, C: nat, NB: nat, lo: nat, ch: Chunk, ghost S: Matrix, sws: array2<real>)
    returns (acc: Matrix, inter: Matrix)
    requires 0 < NB && x.dk % NB == 0 && Scratch(x, ch, S, sws, lo, C, 0)
    modifies sws
    ensures Partials(x, ch, S, C, acc, inter, x.dk) && Scratch(x, ch, S, sws, lo, C, x.dk)
  {
    hide Partials, AddScore, AddInter, Scratch, ScaledAdvance, At;
    var BK, dof := x.dk / NB, 0;
    acc, inter := Zeros(C, C), Zeros(C, x.dv);
    PartialsStart(x, ch, S, C);
    for j := 0 to NB
      invariant dof == j * BK && Partials(x, ch, S, C, acc, inter, dof) && Scratch(x, ch, S, sws, lo, C, dof)
    {
      BlockEnd(x.dk, NB, j);
      var blk := LoadBlock(x, ch, S, sws, lo, C, dof, BK);
      PartialsStep(x, ch, S, C, acc, inter, blk, dof, BK);
      acc, inter := AddScore(ch, C, acc, dof, BK), AddInter(x, ch, C, inter, blk, dof, BK);
      OverwriteBlock(x, ch, S, sws, lo, C, dof, BK, blk);
      dof := dof + BK;
    }
    BlockEnd(x.dk, NB, NB - 1);
  }

  /** The scratch state between chunks. */
  ghost predicate ScratchIs(x: Gla, S: Matrix, sws: array2<real>)
    reads sws
  {
    sws.Length0 == x.dk && sws.Length1 == x.dv && forall i, j | 0 <= i < x.dk && 0 <= j < x.dv ::
      sws[i, j] == At(S, i, j)
  }

  lemma ScratchEnds(x: Gla, ch: Chunk, S: Matrix, sws: array2<real>, lo: int, C: nat)
    ensures ScratchIs(x, S, sws) ==> Scratch(x, ch, S, sws, lo, C, 0)
    ensures Scratch(x, ch, S, sws, lo, C, x.dk) ==> ScratchIs(x, ScaledAdvance(x, ch, S, lo, C), sws)
  {
    hide At, ScaledAdvance;
  }

  /** scan of t5_gmstate_probe.py: the state lives in sws and is read and
      overwritten block by block; outputs and final state are those of the
      whole-tile carry. */
  method ScanInPlace(x: Gla, C: nat, NB: nat, Srecv: Matrix, O: array2<real>, sws: array2<real>)
    requires Chunked(x, C) && 0 < NB && x.dk % NB == 0 && IsMatrix(Srecv, x.dk, x.dv) && O != sws
    requires O.Length0 == x.T && O.Length1 == x.dv && sws.Length0 == x.dk && sws.Length1 == x.dv
    modifies O, sws
    ensures HoldsOut(x, Srecv, O, x.T)
    ensures forall i, j | 0 <= i < x.dk && 0 <= j < x.dv :: sws[i, j] == State(x, 0, At(Srecv, i, j), x.T, i, j)
  {
    hide HoldsState, HoldsOut, Recompute, ScaledAdvance, Score, Inter, Scratch, ScratchIs;
    WriteRows(sws, 0, Srecv);
    OutStart(x, Srecv, O);
    ghost var S := Srecv;
    StartState(x, Srecv);
    assert ScratchIs(x, S, sws) by { SeedScratch(x, Srecv, sws); }
    var lo, N := 0, x.T / C;
    ChunksCover(x.T, C);
    for n := 0 to N
      invariant lo == n * C && HoldsOut(x, Srecv, O, lo) && HoldsState(x, Srecv, S, lo) && ScratchIs(x, S, sws)
    {
      ChunkBounds(x.T, C, n);
      var ch := Recompute(x, lo, C);
      ScratchEnds(x, ch, S, sws, lo, C);
      var acc, inter := ScratchChunk(x, C, NB, lo, ch, S, sws);
      ScratchEnds(x, ch, S, sws, lo, C);
      StoreOut(x, C, lo, Srecv, S, inter, acc, O);
      ScaledAdvanceState(x, Srecv, S, lo, C);
      S := ScaledAdvance(x, ch, S, lo, C);
      lo := lo + C;
    }
    FinalScratch(x, Srecv, S, sws);
  }

  lemma SeedScratch(x: Gla, Srecv: Matrix, sws: array2<real>)
    requires sws.Length0 == x.dk && sws.Length1 == x.dv && IsMatrix(Srecv, x.dk, x.dv)
    requires forall i, j | 0 <= i < x.dk && 0 <= j < x.dv :: sws[i, j] == At(Srecv, i, j)
    ensures ScratchIs(x, Srecv, sws)
  {}

  lemma FinalScratch(x: Gla, B: Matrix, S: Matrix, sws: array2<real>)
    requires HoldsState(x, B, S, x.T) && ScratchIs(x, S, sws)
    ensures sws.Length0 == x.dk && sws.Length1 == x.dv
    ensures forall i, j | 0 <= i < x.dk && 0 <= j < x.dv :: sws[i, j] == State(x, 0, At(B, i, j), x.T, i, j)
  {
    hide State, At;
  }
}
