/** gla_chunk_scan and gla_reconstruct: one device's chunk-parallel forward. */
module ChunkForward {
  import opened Tensor
  import opened Gla
  import opened Chunk

  /** What the source asserts of the chunk size, and the non-zero gates it divides by. */
  ghost predicate Chunked(x: Gla, C: nat) {
    x.Valid() && x.GatesNonZero() && 0 < C && x.T % C == 0
  }

  /** S holds the state before token lo of the device, started from zero. */
  ghost predicate HoldsLocal(x: Gla, S: Matrix, lo: int) {
    IsMatrix(S, x.dk, x.dv) && forall i, j | 0 <= i < x.dk && 0 <= j < x.dv :: At(S, i, j) == State(x, 0, 0.0, lo, i, j)
  }

  ghost predicate HoldsDecay(x: Gla, c: Vector, lo: int) {
    |c| == x.dk && forall i | 0 <= i < x.dk :: El(c, i) == Decay(x, 0, lo, i)
  }

  function AdvanceState(x: Gla, c: Chunk, S: Matrix, lo: int, C: nat): Matrix {
    Tab(x.dk, x.dv, (i, j) => El(c.gamma, i) * At(S, i, j) + KstateV(x, c, lo, C, i, j))
  }

  function AdvanceDecay(x: Gla, c: Chunk, d: Vector): Vector {
    TabV(x.dk, i => El(d, i) * El(c.gamma, i))
  }

  lemma AdvanceLocal(x: Gla, S: Matrix, c: Vector, lo: int, C: nat)
    requires Chunked(x, C) && 0 <= lo && lo + C <= x.T && HoldsLocal(x, S, lo) && HoldsDecay(x, c, lo)
    ensures HoldsLocal(x, AdvanceState(x, Recompute(x, lo, C), S, lo, C), lo + C)
    ensures HoldsDecay(x, AdvanceDecay(x, Recompute(x, lo, C), c), lo + C)
  {
    hide Decay, At, El, State, KstateV, Recompute;
    var ch := Recompute(x, lo, C);
    forall i, j | 0 <= i < x.dk && 0 <= j < x.dv
      ensures At(AdvanceState(x, ch, S, lo, C), i, j) == State(x, 0, 0.0, lo + C, i, j)
    {
      ChunkAdvance(x, lo, C, At(S, i, j), i, j);
      StateResume(x, 0, lo, 0.0, lo + C, i, j);
    }
    forall i | 0 <= i < x.dk ensures El(AdvanceDecay(x, ch, c), i) == Decay(x, 0, lo + C, i) {
      RecomputeAt(x, lo, C, 0, i);
      DecaySplit(x, 0, lo, lo + C, i);
    }
  }

  lemma ChunksCover(T: nat, C: nat)
    requires 0 < C && T % C == 0
    ensures T / C * C == T
  {}

  lemma ChunkBounds(T: nat, C: nat, n: int)
    requires 0 < C && T % C == 0 && 0 <= n < T / C
    ensures 0 <= n * C && n * C + C == (n + 1) * C <= T
  {
    MulMono(n + 1, T / C, C);
  }

  /** First token of the chunk that token t belongs to. */
  function ChunkStart(C: nat, t: int): int
    requires 0 < C
  {
    t / C * C
  }

  /** Intra-chunk output of token t. */
  function IntraAt(x: Gla, C: nat, t: int, j: int): real
    requires 0 < C
  {
    var lo := ChunkStart(C, t);
    IntraOut(x, Recompute(x, lo, C), lo, C, t - lo, j)
  }

  lemma IntraAtChunk(x: Gla, C: nat, n: int, t: int, j: int)
    requires 0 < C && 0 <= t < C
    ensures IntraAt(x, C, n * C + t, j) == IntraOut(x, Recompute(x, n * C, C), n * C, C, t, j)
  {
    hide IntraOut, Recompute;
    ChunkIndex(C, n, n * C + t);
  }

  /** The per-chunk pre-states and decays collected so far. */
  ghost predicate Snapshots(x: Gla, C: nat, Sprev: seq<Matrix>, cprev: seq<Vector>, N: nat) {
    |Sprev| == |cprev| == N
    && forall n | 0 <= n < N :: HoldsLocal(x, Sprev[n], n * C) && HoldsDecay(x, cprev[n], n * C)
  }

  lemma SnapshotAdded(x: Gla, C: nat, Sprev: seq<Matrix>, cprev: seq<Vector>, n: nat, S: Matrix, c: Vector)
    requires Snapshots(x, C, Sprev, cprev, n) && HoldsLocal(x, S, n * C) && HoldsDecay(x, c, n * C)
    ensures Snapshots(x, C, Sprev + [S], cprev + [c], n + 1)
  {
    hide HoldsLocal, HoldsDecay;
  }

  ghost predicate HoldsIntra(x: Gla, C: nat, O: array2<real>, hi: int)
    requires 0 < C && O.Length0 == x.T && O.Length1 == x.dv
    reads O
  {
    forall t, j | 0 <= t < hi && t < x.T && 0 <= j < x.dv :: O[t, j] == IntraAt(x, C, t, j)
  }

  /** O_intra[lo:hi] = scores @ v */
  method WriteIntra(x: Gla, C: nat, ch: Chunk, n: nat, lo: nat, O: array2<real>)
    requires 0 < C && lo == n * C && lo + C <= x.T && ch == Recompute(x, lo, C)
    requires O.Length0 == x.T && O.Length1 == x.dv && HoldsIntra(x, C, O, lo)
    modifies O
    ensures HoldsIntra(x, C, O, lo + C)
  {
    hide IntraAt, Recompute, IntraOut;
    var blk := Tab(C, x.dv, (t, j) => IntraOut(x, ch, lo, C, t, j));
    WriteRows(O, lo, blk);
    forall t, j | lo <= t < lo + C && 0 <= j < x.dv ensures O[t, j] == IntraAt(x, C, t, j) {
      IntraAtChunk(x, C, n, t - lo, j);
      assert At(blk, t - lo, j) == IntraOut(x, ch, lo, C, t - lo, j);
    }
  }

  /** gla_chunk_scan */
  method GlaChunkScan(x: Gla, C: nat)
    returns (Sprev: seq<Matrix>, cprev: seq<Vector>, Ointra: array2<real>, Stotal: Matrix, gtotal: Vector)
    requires Chunked(x, C)
    ensures Snapshots(x, C, Sprev, cprev, x.T / C)
    ensures fresh(Ointra) && Ointra.Length0 == x.T && Ointra.Length1 == x.dv && HoldsIntra(x, C, Ointra, x.T)
    ensures HoldsLocal(x, Stotal, x.T) && HoldsDecay(x, gtotal, x.T)
  {
    hide Snapshots, HoldsIntra, HoldsLocal, HoldsDecay, Recompute, AdvanceState, AdvanceDecay;
    var S := Zeros(x.dk, x.dv);
    var c := TabV(x.dk, _ => 1.0);
    ScanStart(x, C, S, c);
    Sprev, cprev := [], [];
    Ointra := new real[x.T, x.dv]((_, _) => 0.0);
    var lo, N := 0, x.T / C;
    ChunksCover(x.T, C);
    IntraStart(x, C, Ointra);
    for n := 0 to N
      invariant lo == n * C && Snapshots(x, C, Sprev, cprev, n)
      invariant HoldsLocal(x, S, lo) && HoldsDecay(x, c, lo) && HoldsIntra(x, C, Ointra, lo)
    {
      ChunkBounds(x.T, C, n);
      var ch := Recompute(x, lo, C);
      SnapshotAdded(x, C, Sprev, cprev, n, S, c);
      Sprev, cprev := Sprev + [S], cprev + [c];
      WriteIntra(x, C, ch, n, lo, Ointra);
      AdvanceLocal(x, S, c, lo, C);
      S, c := AdvanceState(x, ch, S, lo, C), AdvanceDecay(x, ch, c);
      lo := lo + C;
    }
    Stotal, gtotal := S, c;
  }

  lemma IntraStart(x: Gla, C: nat, O: array2<real>)
    requires 0 < C && O.Length0 == x.T && O.Length1 == x.dv
    ensures HoldsIntra(x, C, O, 0)
  {}

  lemma ScanStart(x: Gla, C: nat, S: Matrix, c: Vector)
    requires S == Zeros(x.dk, x.dv) && c == TabV(x.dk, _ => 1.0)
    ensures HoldsLocal(x, S, 0) && HoldsDecay(x, c, 0) && Snapshots(x, C, [], [], 0)
  {}

  /** S_prev[n] + c_prev[n] * S_recv */
  function History(x: Gla, Sprev: Matrix, cprev: Vector, Srecv: Matrix): Matrix {
    Tab(x.dk, x.dv, (i, j) => At(Sprev, i, j) + El(cprev, i) * At(Srecv, i, j))
  }

  /** It is the state before the chunk, started from the received boundary. */
  lemma HistoryHolds(x: Gla, Sprev: Matrix, cprev: Vector, Srecv: Matrix, lo: int)
    requires HoldsLocal(x, Sprev, lo) && HoldsDecay(x, cprev, lo) && 0 <= lo
    ensures HoldsState(x, Srecv, History(x, Sprev, cprev, Srecv), lo)
  {
    hide Decay, At, El, State;
    forall i, j | 0 <= i < x.dk && 0 <= j < x.dv
      ensures At(History(x, Sprev, cprev, Srecv), i, j) == State(x, 0, At(Srecv, i, j), lo, i, j)
    {
      StateAffine(x, 0, At(Srecv, i, j), lo, i, j);
    }
  }

  ghost predicate HoldsOut(x: Gla, S0: Matrix, O: array2<real>, hi: int)
    requires O.Length0 == x.T && O.Length1 == x.dv
    reads O
  {
    forall t, j | 0 <= t < hi && t < x.T && 0 <= j < x.dv :: O[t, j] == Out(x, S0, t, j)
  }

  /** O[lo:hi] = Qt @ hist + O_intra[lo:hi] */
  method WriteOut(x: Gla, C: nat, n: nat, lo: nat, hist: Matrix, Srecv: Matrix, Ointra: array2<real>, O: array2<real>)
    requires Chunked(x, C) && lo == n * C && lo + C <= x.T && HoldsState(x, Srecv, hist, lo)
    requires Ointra.Length0 == x.T && Ointra.Length1 == x.dv && HoldsIntra(x, C, Ointra, x.T)
    requires O.Length0 == x.T && O.Length1 == x.dv && HoldsOut(x, Srecv, O, lo) && O != Ointra
    modifies O
    ensures HoldsOut(x, Srecv, O, lo + C)
  {
    hide IntraAt, Recompute, Out, HoldsState, InterOut, IntraOut;
    var ch := Recompute(x, lo, C);
    forall t, j | lo <= t < lo + C && 0 <= j < x.dv {
      O[t, j] := InterOut(x, ch, hist, t - lo, j) + Ointra[t, j];
    }
    forall t, j | lo <= t < lo + C && 0 <= j < x.dv ensures O[t, j] == Out(x, Srecv, t, j) {
      assert Ointra[t, j] == IntraAt(x, C, t, j);
      IntraAtChunk(x, C, n, t - lo, j);
      ChunkOutput(x, Srecv, lo, C, hist, t - lo, j);
    }
  }

  /** gla_reconstruct, on what gla_chunk_scan returned: the output of the token
      recurrence started from the received boundary state. */
  method GlaReconstruct(x: Gla, C: nat, Sprev: seq<Matrix>, cprev: seq<Vector>, Srecv: Matrix, Ointra: array2<real>)
    returns (O: array2<real>)
    requires Chunked(x, C) && Snapshots(x, C, Sprev, cprev, x.T / C)
    requires Ointra.Length0 == x.T && Ointra.Length1 == x.dv && HoldsIntra(x, C, Ointra, x.T)
    ensures fresh(O) && O.Length0 == x.T && O.Length1 == x.dv && HoldsOut(x, Srecv, O, x.T)
  {
    hide HoldsIntra, HoldsLocal, HoldsDecay, HoldsState, History;
    O := new real[x.T, x.dv]((_, _) => 0.0);
    var lo, N := 0, x.T / C;
    ChunksCover(x.T, C);
    for n := 0 to N
      invariant lo == n * C && HoldsOut(x, Srecv, O, lo)
    {
      ChunkBounds(x.T, C, n);
      var hist := History(x, Sprev[n], cprev[n], Srecv);
      HistoryHolds(x, Sprev[n], cprev[n], Srecv, lo);
      WriteOut(x, C, n, lo, hist, Srecv, Ointra, O);
      lo := lo + C;
    }
  }
}
