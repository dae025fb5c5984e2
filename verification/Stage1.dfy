/** Stage 1 without a whole-state carry (a1_stage1_probe.py: head blocks outside,
    chunks inside), and the linearity that lets stage 2 drop its carry
    (t5_snapshot_math.py). */
module Stage1 {
  import opened Tensor
  import opened Gla
  import opened Chunk
  import opened ChunkForward
  import opened Snapshot
  import opened Restructured
  import opened KernelBuffers
  import opened HeadBlocks

  // ---------------------------------------------------------------------
  // Loop interchange
  // ---------------------------------------------------------------------

  /** Row r of a snapshot buffer: key row r % dk of chunk r / dk. */
  ghost predicate InStore(dk: int, r: int, n: int, dof: int, BK: int)
    requires 0 < dk
  {
    r / dk == n && dof <= r % dk < dof + BK
  }

  lemma StoreRows(dk: int, r: int, n: int, dof: int, BK: int)
    requires 0 < dk && 0 <= dof && dof + BK <= dk && 0 <= n
    ensures InStore(dk, r, n, dof, BK) <==> n * dk + dof <= r < n * dk + dof + BK
    ensures InStore(dk, r, n, dof, BK) ==> r - (n * dk + dof) == r % dk - dof
  {
    if n * dk + dof <= r < n * dk + dof + BK { ChunkIndex(dk, n, r); }
  }

  /** The stores made so far: all of the head blocks before dof, and of the
      block at dof the chunks before n. */
  ghost predicate Reached(dk: int, r: int, dof: int, BK: int, n: int)
    requires 0 < dk
  {
    r % dk < dof || (r % dk < dof + BK && r / dk < n)
  }

  /** How often each row of the two snapshot buffers has been stored. */
  datatype Tallies = Tallies(snaps: seq<nat>, decays: seq<nat>)

  /** Each row reached has been stored once, the others never. */
  ghost predicate Tally(x: Gla, C: nat, stores: seq<nat>, dof: int, BK: int, n: int) {
    0 < x.dk && 0 < C && |stores| == x.T / C * x.dk
    && forall r | 0 <= r < |stores| :: stores[r] == if Reached(x.dk, r, dof, BK, n) then 1 else 0
  }

  /** Each row reached holds its snapshot. */
  ghost predicate StatesIn(x: Gla, C: nat, snaps: array2<real>, dof: int, BK: int, n: int)
    reads snaps
  {
    0 < x.dk && 0 < C && snaps.Length0 == x.T / C * x.dk && snaps.Length1 == x.dv
    && forall r, j | 0 <= r < snaps.Length0 && 0 <= j < x.dv && Reached(x.dk, r, dof, BK, n) ::
         snaps[r, j] == State(x, 0, 0.0, r / x.dk * C, r % x.dk, j)
  }

  ghost predicate DecaysIn(x: Gla, C: nat, decays: array2<real>, dof: int, BK: int, n: int)
    reads decays
  {
    0 < x.dk && 0 < C && decays.Length0 == x.T / C * x.dk && decays.Length1 == 1
    && forall r | 0 <= r < decays.Length0 && Reached(x.dk, r, dof, BK, n) ::
         decays[r, 0] == Decay(x, 0, r / x.dk * C, r % x.dk)
  }

  ghost predicate Filled(x: Gla, C: nat, snaps: array2<real>, decays: array2<real>, stores: Tallies, dof: int, BK: int,
                         n: int)
    reads snaps, decays
  {
    && Tally(x, C, stores.snaps, dof, BK, n) && Tally(x, C, stores.decays, dof, BK, n)
    && StatesIn(x, C, snaps, dof, BK, n) && DecaysIn(x, C, decays, dof, BK, n)
  }

  /** The carried tiles of one head block before chunk n. */
  ghost predicate Carry(x: Gla, s: Matrix, g: Vector, dof: int, BK: nat, lo: int) {
    && IsMatrix(s, BK, x.dv) && |g| == BK
    && (forall i, j | 0 <= i < BK && 0 <= j < x.dv :: At(s, i, j) == State(x, 0, 0.0, lo, dof + i, j))
    && (forall i | 0 <= i < BK :: El(g, i) == Decay(x, 0, lo, dof + i))
  }

  lemma CarryStart(x: Gla, dof: int, BK: nat)
    ensures Carry(x, Zeros(BK, x.dv), TabV(BK, _ => 1.0), dof, BK, 0)
  {}

  function AdvanceGain(ch: Chunk, g: Vector, dof: int, BK: nat): Vector {
    TabV(BK, i => El(g, i) * El(ch.gamma, dof + i))
  }

  lemma CarryStep(x: Gla, C: nat, s: Matrix, g: Vector, dof: int, BK: nat, lo: int)
    requires Chunked(x, C) && 0 <= lo && lo + C <= x.T && 0 <= dof && dof + BK <= x.dk && Carry(x, s, g, dof, BK, lo)
    ensures var ch := Recompute(x, lo, C);
      Carry(x, AdvanceBlock(x, ch, s, lo, C, dof, BK), AdvanceGain(ch, g, dof, BK), dof, BK, lo + C)
  {
    hide State, Decay, At, El, Recompute, KV, Sum;
    var ch := Recompute(x, lo, C);
    forall i, j | 0 <= i < BK && 0 <= j < x.dv
      ensures At(AdvanceBlock(x, ch, s, lo, C, dof, BK), i, j) == State(x, 0, 0.0, lo + C, dof + i, j)
    {
      RecomputeAt(x, lo, C, 0, dof + i);
      KinV(x, lo, C, C, dof + i, j);
      StateClosed(x, lo, At(s, i, j), C, dof + i, j);
      StateResume(x, 0, lo, 0.0, lo + C, dof + i, j);
    }
    forall i | 0 <= i < BK ensures El(AdvanceGain(ch, g, dof, BK), i) == Decay(x, 0, lo + C, dof + i) {
      RecomputeAt(x, lo, C, 0, dof + i);
      DecaySplit(x, 0, lo, lo + C, dof + i);
    }
  }

  function Counted(stores: seq<nat>, off: int, BK: int): seq<nat> {
    seq(|stores|, r requires 0 <= r < |stores| => if off <= r < off + BK then stores[r] + 1 else stores[r])
  }

  /** buf[off : off + |blk|] = blk, with one more store counted for each row written. */
  method CountedStore(buf: array2<real>, ghost stores: seq<nat>, off: nat, blk: Matrix)
    returns (ghost stores': seq<nat>)
    requires IsMatrix(blk, |blk|, buf.Length1) && off + |blk| <= buf.Length0
    modifies buf
    ensures forall r, j | 0 <= r < buf.Length0 && 0 <= j < buf.Length1 ::
      buf[r, j] == if off <= r < off + |blk| then At(blk, r - off, j) else old(buf[r, j])
    ensures stores' == Counted(stores, off, |blk|)
  {
    WriteRows(buf, off, blk);
    stores' := Counted(stores, off, |blk|);
  }

  /** snaps[n * dk + dof : + BK] = s_run */
  method StoreStates(x: Gla, C: nat, snaps: array2<real>, ghost stores: seq<nat>, n: nat, lo: nat, dof: nat, BK: nat,
                     s: Matrix, ghost g: Vector)
    returns (ghost stores': seq<nat>)
    requires 0 < C && n < x.T / C && lo == n * C && dof + BK <= x.dk && Carry(x, s, g, dof, BK, lo)
    requires StatesIn(x, C, snaps, dof, BK, n) && Tally(x, C, stores, dof, BK, n)
    modifies snaps
    ensures StatesIn(x, C, snaps, dof, BK, n + 1) && Tally(x, C, stores', dof, BK, n + 1)
  {
    hide State, At, Reached, Tally, Counted;
    BlockFits(x.T / C, n, x.dk);
    CountRows(x, C, stores, n, dof, BK);
    stores' := CountedStore(snaps, stores, n * x.dk + dof, s);
    forall r, j | 0 <= r < snaps.Length0 && 0 <= j < x.dv && Reached(x.dk, r, dof, BK, n + 1)
      ensures snaps[r, j] == State(x, 0, 0.0, r / x.dk * C, r % x.dk, j)
    {
      ReachedStep(x.dk, r, n, dof, BK);
    }
  }

  /** decays[n * dk + dof : + BK] = g_run */
  method StoreDecays(x: Gla, C: nat, decays: array2<real>, ghost stores: seq<nat>, n: nat, lo: nat, dof: nat, BK: nat,
                     ghost s: Matrix, g: Vector)
    returns (ghost stores': seq<nat>)
    requires 0 < C && n < x.T / C && lo == n * C && dof + BK <= x.dk && Carry(x, s, g, dof, BK, lo)
    requires DecaysIn(x, C, decays, dof, BK, n) && Tally(x, C, stores, dof, BK, n)
    modifies decays
    ensures DecaysIn(x, C, decays, dof, BK, n + 1) && Tally(x, C, stores', dof, BK, n + 1)
  {
    hide Decay, At, El, Reached, Column, Tally, Counted;
    BlockFits(x.T / C, n, x.dk);
    ColumnEntry(g);
    CountRows(x, C, stores, n, dof, BK);
    stores' := CountedStore(decays, stores, n * x.dk + dof, Column(g));
    forall r | 0 <= r < decays.Length0 && Reached(x.dk, r, dof, BK, n + 1)
      ensures decays[r, 0] == Decay(x, 0, r / x.dk * C, r % x.dk)
    {
      ReachedStep(x.dk, r, n, dof, BK);
    }
  }

  lemma CountRows(x: Gla, C: nat, stores: seq<nat>, n: nat, dof: nat, BK: nat)
    requires 0 < C && n < x.T / C && dof + BK <= x.dk && Tally(x, C, stores, dof, BK, n)
    ensures Tally(x, C, Counted(stores, n * x.dk + dof, BK), dof, BK, n + 1)
  {
    hide Reached;
    var off := n * x.dk + dof;
    forall r | 0 <= r < |stores|
      ensures Counted(stores, off, BK)[r] == if Reached(x.dk, r, dof, BK, n + 1) then 1 else 0
    {
      ReachedStep(x.dk, r, n, dof, BK);
    }
  }

  /** Both stores of one chunk of one head block. */
  method StoreCarry(x: Gla, C: nat, snaps: array2<real>, decays: array2<real>, ghost stores: Tallies, n: nat, lo: nat,
                    dof: nat, BK: nat, s: Matrix, g: Vector)
    returns (ghost stores': Tallies)
    requires Chunked(x, C) && n < x.T / C && lo == n * C && dof + BK <= x.dk && snaps != decays
    requires Filled(x, C, snaps, decays, stores, dof, BK, n) && Carry(x, s, g, dof, BK, lo)
    modifies snaps, decays
    ensures Filled(x, C, snaps, decays, stores', dof, BK, n + 1)
  {
    hide Carry, Tally, StatesIn, DecaysIn;
    ghost var states := StoreStates(x, C, snaps, stores.snaps, n, lo, dof, BK, s, g);
    ghost var gains := StoreDecays(x, C, decays, stores.decays, n, lo, dof, BK, s, g);
    stores' := Tallies(states, gains);
  }

  lemma ReachedStep(dk: int, r: int, n: int, dof: int, BK: int)
    requires 0 < dk && 0 <= dof && dof + BK <= dk && 0 <= n
    ensures Reached(dk, r, dof, BK, n + 1) <==> Reached(dk, r, dof, BK, n) || n * dk + dof <= r < n * dk + dof + BK
    ensures n * dk + dof <= r < n * dk + dof + BK ==>
      !Reached(dk, r, dof, BK, n) && r / dk == n && r % dk == dof + (r - (n * dk + dof))
  {
    StoreRows(dk, r, n, dof, BK);
  }

  lemma ColumnEntry(g: Vector)
    ensures IsMatrix(Column(g), |g|, 1) && forall i | 0 <= i < |g| :: At(Column(g), i, 0) == El(g, i)
  {}

  lemma NextBlock(x: Gla, C: nat, snaps: array2<real>, decays: array2<real>, stores: Tallies, dof: int, BK: nat)
    requires 0 < C && Filled(x, C, snaps, decays, stores, dof, BK, x.T / C)
    ensures Filled(x, C, snaps, decays, stores, dof + BK, BK, 0)
  {
    hide State, Decay;
    forall r | 0 <= r < snaps.Length0
      ensures Reached(x.dk, r, dof + BK, BK, 0) <==> Reached(x.dk, r, dof, BK, x.T / C)
    {
      RowInBlock(x.T / C, x.dk, r);
    }
  }

  ghost predicate TotalRows(x: Gla, tot: array2<real>, dof: int)
    reads tot
  {
    tot.Length0 == x.dk && tot.Length1 == x.dv && forall i, j | 0 <= i < dof && i < x.dk && 0 <= j < x.dv ::
      tot[i, j] == State(x, 0, 0.0, x.T, i, j)
  }

  /** The chunk loop of one head block; only its [BK, dv] carry is live. */
  method ScanChunks(x: Gla, C: nat, snaps: array2<real>, decays: array2<real>, ghost stores: Tallies, dof: nat, BK: nat)
    returns (s: Matrix, g: Vector, ghost stores': Tallies)
    requires Chunked(x, C) && dof + BK <= x.dk && snaps != decays && Filled(x, C, snaps, decays, stores, dof, BK, 0)
    modifies snaps, decays
    ensures Filled(x, C, snaps, decays, stores', dof, BK, x.T / C) && Carry(x, s, g, dof, BK, x.T)
  {
    hide Filled, Carry, AdvanceBlock, AdvanceGain, Recompute, Gla.Valid, Gla.GatesNonZero, IsMatrix;
    s, g := Zeros(BK, x.dv), TabV(BK, _ => 1.0);
    CarryStart(x, dof, BK);
    stores' := stores;
    var lo, N := 0, x.T / C;
    ChunksCover(x.T, C);
    for n := 0 to N
      invariant lo == n * C && Filled(x, C, snaps, decays, stores', dof, BK, n) && Carry(x, s, g, dof, BK, lo)
    {
      ChunkBounds(x.T, C, n);
      var ch := Recompute(x, lo, C);
      stores' := StoreCarry(x, C, snaps, decays, stores', n, lo, dof, BK, s, g);
      CarryStep(x, C, s, g, dof, BK, lo);
      s, g := AdvanceBlock(x, ch, s, lo, C, dof, BK), AdvanceGain(ch, g, dof, BK);
      lo := lo + C;
    }
  }

  /** One head block: its chunk loop, then its rows of the total. */
  method ScanBlock(x: Gla, C: nat, snaps: array2<real>, decays: array2<real>, tot: array2<real>, ghost stores: Tallies,
                   dof: nat, BK: nat)
    returns (ghost stores': Tallies)
    requires Chunked(x, C) && dof + BK <= x.dk && snaps != decays && tot != snaps && tot != decays
    requires Filled(x, C, snaps, decays, stores, dof, BK, 0) && TotalRows(x, tot, dof)
    modifies snaps, decays, tot
    ensures Filled(x, C, snaps, decays, stores', dof + BK, BK, 0) && TotalRows(x, tot, dof + BK)
  {
    hide Filled, Carry, TotalRows;
    var s, g;
    s, g, stores' := ScanChunks(x, C, snaps, decays, stores, dof, BK);
    NextBlock(x, C, snaps, decays, stores', dof, BK);
    StoreTotal(x, tot, s, g, dof, BK);
  }

  method StoreTotal(x: Gla, tot: array2<real>, s: Matrix, ghost g: Vector, dof: nat, BK: nat)
    requires dof + BK <= x.dk && Carry(x, s, g, dof, BK, x.T) && TotalRows(x, tot, dof)
    modifies tot
    ensures TotalRows(x, tot, dof + BK)
  {
    hide State, At;
    WriteRows(tot, dof, s);
    forall i, j | dof <= i < dof + BK && 0 <= j < x.dv ensures tot[i, j] == State(x, 0, 0.0, x.T, i, j) {
      assert At(s, i - dof, j) == State(x, 0, 0.0, x.T, dof + (i - dof), j);
    }
  }

  /** stage1: every row of the snapshot buffers is stored exactly once, and the
      buffers and the final state are those of the chunk-outer walk. */
  method BlockOuter(x: Gla, C: nat, NB: nat, snaps: array2<real>, decays: array2<real>, tot: array2<real>)
    returns (ghost stores: Tallies)
    requires Chunked(x, C) && 0 < x.dk && 0 < NB && x.dk % NB == 0 && snaps != decays && tot != snaps && tot != decays
    requires snaps.Length0 == decays.Length0 == x.T / C * x.dk && snaps.Length1 == x.dv && decays.Length1 == 1
    requires tot.Length0 == x.dk && tot.Length1 == x.dv
    modifies snaps, decays, tot
    ensures SnapshotsIn(x, C, snaps, decays, x.T / C)
    ensures forall i, j | 0 <= i < x.dk && 0 <= j < x.dv :: tot[i, j] == State(x, 0, 0.0, x.T, i, j)
    ensures |stores.snaps| == |stores.decays| == x.T / C * x.dk
    ensures forall r | 0 <= r < x.T / C * x.dk :: stores.snaps[r] == 1 && stores.decays[r] == 1
  {
    hide Filled, TotalRows, SnapshotsIn;
    ghost var none := seq(x.T / C * x.dk, _ => 0);
    stores := Tallies(none, none);
    var BK, dof := x.dk / NB, 0;
    NothingStored(x, C, snaps, decays, tot, stores, BK);
    for j := 0 to NB
      invariant dof == j * BK && Filled(x, C, snaps, decays, stores, dof, BK, 0) && TotalRows(x, tot, dof)
    {
      BlockEnd(x.dk, NB, j);
      stores := ScanBlock(x, C, snaps, decays, tot, stores, dof, BK);
      dof := dof + BK;
    }
    BlockEnd(x.dk, NB, NB - 1);
    EverythingStored(x, C, snaps, decays, tot, stores, BK);
  }

  lemma NothingStored(x: Gla, C: nat, snaps: array2<real>, decays: array2<real>, tot: array2<real>, stores: Tallies,
                      BK: nat)
    requires Chunked(x, C) && 0 < x.dk && snaps.Length0 == decays.Length0 == |stores.snaps| == x.T / C * x.dk
    requires snaps.Length1 == x.dv && decays.Length1 == 1 && stores.decays == stores.snaps
    requires tot.Length0 == x.dk && tot.Length1 == x.dv && forall r | 0 <= r < |stores.snaps| :: stores.snaps[r] == 0
    ensures Filled(x, C, snaps, decays, stores, 0, BK, 0) && TotalRows(x, tot, 0)
  {
    forall r | 0 <= r < snaps.Length0 ensures !Reached(x.dk, r, 0, BK, 0) { RowInBlock(x.T / C, x.dk, r); }
  }

  lemma EverythingStored(x: Gla, C: nat, snaps: array2<real>, decays: array2<real>, tot: array2<real>, stores: Tallies,
                         BK: nat)
    requires Filled(x, C, snaps, decays, stores, x.dk, BK, 0) && TotalRows(x, tot, x.dk)
    ensures SnapshotsIn(x, C, snaps, decays, x.T / C)
    ensures tot.Length0 == x.dk && tot.Length1 == x.dv
    ensures forall i, j | 0 <= i < x.dk && 0 <= j < x.dv :: tot[i, j] == State(x, 0, 0.0, x.T, i, j)
    ensures |stores.snaps| == |stores.decays| == x.T / C * x.dk
    ensures forall r | 0 <= r < x.T / C * x.dk :: stores.snaps[r] == 1 && stores.decays[r] == 1
  {
    hide State, Decay;
    forall r | 0 <= r < snaps.Length0 ensures Reached(x.dk, r, x.dk, BK, 0) { RowInBlock(x.T / C, x.dk, r); }
    forall n | 0 <= n < x.T / C && HasBlock(snaps.Length0, n, x.dk)
      ensures HoldsLocal(x, BlockOf(snaps, n, x.dk), n * C) && HoldsDecay(x, Entries(BlockOf(decays, n, x.dk)), n * C)
    {
      SnapshotAt(x, C, snaps, decays, n);
    }
  }

  lemma SnapshotAt(x: Gla, C: nat, snaps: array2<real>, decays: array2<real>, n: int)
    requires 0 < x.dk && 0 <= n && HasBlock(snaps.Length0, n, x.dk) && snaps.Length0 == decays.Length0
    requires snaps.Length1 == x.dv && decays.Length1 == 1
    requires forall r, j | 0 <= r < snaps.Length0 && 0 <= j < x.dv ::
      snaps[r, j] == State(x, 0, 0.0, r / x.dk * C, r % x.dk, j)
    requires forall r | 0 <= r < snaps.Length0 :: decays[r, 0] == Decay(x, 0, r / x.dk * C, r % x.dk)
    ensures HoldsLocal(x, BlockOf(snaps, n, x.dk), n * C) && HoldsDecay(x, Entries(BlockOf(decays, n, x.dk)), n * C)
  {
    hide State, Decay, At, El, BlockOf;
    var m, c := BlockOf(snaps, n, x.dk), BlockOf(decays, n, x.dk);
    var lo := n * C;
    forall i, j | 0 <= i < x.dk && 0 <= j < x.dv ensures At(m, i, j) == State(x, 0, 0.0, lo, i, j) {
      RowOfBlock(x.dk, n, i);
    }
    var e := Entries(c);
    forall i | 0 <= i < x.dk ensures El(e, i) == Decay(x, 0, lo, i) {
      RowOfBlock(x.dk, n, i);
      assert At(c, i, 0) == decays[n * x.dk + i, 0];
    }
  }

  lemma RowOfBlock(dk: int, n: int, i: int)
    requires 0 <= i < dk && 0 <= n
    ensures (n * dk + i) / dk == n && (n * dk + i) % dk == i && 0 <= n * dk
  {
    ChunkIndex(dk, n, n * dk + i);
    MulMono(0, n, dk);
  }

  // ---------------------------------------------------------------------
  // Carry removal
  // ---------------------------------------------------------------------

  /** states[n] is the state that chunk n's output uses, from boundary B. */
  ghost predicate ChunkStates(x: Gla, C: nat, B: Matrix, states: seq<Matrix>, N: nat) {
    |states| == N && forall n | 0 <= n < N :: HoldsState(x, B, states[n], n * C)
  }

  /** carried: the state walks the chunks from the boundary. */
  method Carried(x: Gla, C: nat, B: Matrix) returns (states: seq<Matrix>, S: Matrix)
    requires Chunked(x, C)
    ensures ChunkStates(x, C, B, states, x.T / C) && HoldsState(x, B, S, x.T)
    ensures IsMatrix(B, x.dk, x.dv) ==> IsMatrix(S, x.dk, x.dv)
  {
    hide HoldsState, Recompute, ScaledAdvance;
    states, S := [], B;
    StartState(x, B);
    var lo, N := 0, x.T / C;
    ChunksCover(x.T, C);
    for n := 0 to N
      invariant lo == n * C && ChunkStates(x, C, B, states, n) && HoldsState(x, B, S, lo)
      invariant IsMatrix(B, x.dk, x.dv) ==> IsMatrix(S, x.dk, x.dv)
    {
      ChunkBounds(x.T, C, n);
      states := states + [S];
      ScaledAdvanceState(x, B, S, lo, C);
      AdvanceShape(x, Recompute(x, lo, C), S, lo, C);
      S := ScaledAdvance(x, Recompute(x, lo, C), S, lo, C);
      lo := lo + C;
    }
  }

  /** Stage 1's walk from zero: S_n(0) and G_n for every chunk. */
  method WalkFromZero(x: Gla, C: nat) returns (snaps: seq<Matrix>, decays: seq<Vector>, S0: Matrix, G: Vector)
    requires Chunked(x, C)
    ensures Snapshots(x, C, snaps, decays, x.T / C) && HoldsLocal(x, S0, x.T) && HoldsDecay(x, G, x.T)
  {
    hide HoldsLocal, HoldsDecay, Recompute, ScaledAdvance, AdvanceDecay, Snapshots;
    S0, G := Zeros(x.dk, x.dv), TabV(x.dk, _ => 1.0);
    ScanStart(x, C, S0, G);
    snaps, decays := [], [];
    var lo, N := 0, x.T / C;
    ChunksCover(x.T, C);
    for n := 0 to N
      invariant lo == n * C && Snapshots(x, C, snaps, decays, n) && HoldsLocal(x, S0, lo) && HoldsDecay(x, G, lo)
    {
      ChunkBounds(x.T, C, n);
      SnapshotAdded(x, C, snaps, decays, n, S0, G);
      snaps, decays := snaps + [S0], decays + [G];
      ScaledAdvanceHolds(x, S0, lo, C);
      AdvanceLocal(x, S0, G, lo, C);
      S0, G := ScaledAdvance(x, Recompute(x, lo, C), S0, lo, C), AdvanceDecay(x, Recompute(x, lo, C), G);
      lo := lo + C;
    }
  }

  /** reconstructed: every state is G_n * B + S_n(0), the same states as carried. */
  method Reconstructed(x: Gla, C: nat, B: Matrix) returns (states: seq<Matrix>, S: Matrix)
    requires Chunked(x, C)
    ensures ChunkStates(x, C, B, states, x.T / C) && HoldsState(x, B, S, x.T)
    ensures IsMatrix(S, x.dk, x.dv)
  {
    hide HoldsState, HoldsLocal, HoldsDecay, History, Gla.Valid, Gla.GatesNonZero;
    var snaps, decays, S0, G := WalkFromZero(x, C);
    states := [];
    for n := 0 to x.T / C
      invariant ChunkStates(x, C, B, states, n)
    {
      ChunkBounds(x.T, C, n);
      HistoryHolds(x, snaps[n], decays[n], B, n * C);
      states := states + [History(x, snaps[n], decays[n], B)];
    }
    HistoryHolds(x, S0, G, B, x.T);
    HistoryShape(x, S0, G, B);
    S := History(x, S0, G, B);
  }

  lemma HistoryShape(x: Gla, S0: Matrix, G: Vector, B: Matrix)
    ensures IsMatrix(History(x, S0, G, B), x.dk, x.dv)
  {}
}
