/** The AllScan ring programs on the dispatch machine, forward and backward,
    with any number of rings on disjoint windows. Tensors are cut into K blocks
    of h rows (dk = K * h). */
module RingPrograms {
  import opened Tensor
  import opened AllScan
  import M = Machine
  import opened MachineSafety
  import opened MachineLiveness

  type Block = M.Option<Matrix>

  /** Element (i, j) of output tensor [task][rank], read from its block. */
  function Read(m: map<M.Cell, Matrix>, h: nat, rank: int, task: int, i: int, j: int): real
    requires 0 < h
  {
    match M.Look(m, M.Cell(rank, task, i / h)) case None => 0.0 case Some(b) => At(b, i % h, j)
  }

  /** Block c is a rows x cols matrix with the entries f. */
  ghost predicate BlockHolds(m: map<M.Cell, Matrix>, c: M.Cell, rows: nat, cols: nat, f: (int, int) -> real) {
    && c in m && |m[c]| == rows && (forall i | 0 <= i < rows :: |m[c][i]| == cols)
    && forall i, j | 0 <= i < rows && 0 <= j < cols :: m[c][i][j] == f(i, j)
  }

  lemma StoredHolds(m: map<M.Cell, Matrix>, c: M.Cell, rows: nat, cols: nat, f: (int, int) -> real)
    requires M.Look(m, c).Some? && IsMatrix(M.Look(m, c).value, rows, cols)
    requires forall i, j | 0 <= i < rows && 0 <= j < cols :: At(M.Look(m, c).value, i, j) == f(i, j)
    ensures BlockHolds(m, c, rows, cols, f)
  {
    forall i, j | 0 <= i < rows && 0 <= j < cols ensures m[c][i][j] == f(i, j) {
      assert At(m[c], i, j) == f(i, j);
    }
  }

  /** Read finds row k * h + i in row i of block k. */
  lemma ReadFinds(m: map<M.Cell, Matrix>, h: nat, rank: int, task: int, k: int, i: int, j: int)
    requires M.Cell(rank, task, k) in m && 0 <= i < h && |m[M.Cell(rank, task, k)]| == h
    requires 0 <= j < |m[M.Cell(rank, task, k)][i]|
    ensures Read(m, h, rank, task, k * h + i, j) == m[M.Cell(rank, task, k)][i][j]
  {
    ChunkDiv(h, k, i);
  }

  lemma ChunkDiv(h: nat, k: int, i: int)
    requires 0 <= i < h
    ensures (k * h + i) / h == k && (k * h + i) % h == i
  {
    var q := (k * h + i) / h;
    assert q * h <= k * h + i < q * h + h;
    if q < k { MulMono(q + 1, k, h); }
    if k < q { MulMono(k + 1, q, h); }
    assert k == q;
  }

  // ---------------------------------------------------------------------
  // Forward: program.py and batched_program.py
  // ---------------------------------------------------------------------

  /** first: the local block; middle and last: S_local + gamma * received. */
  function ForwardBlock(S: seq<Matrix>, g: seq<Vector>, h: nat, dv: nat, c: M.Cell, recv: Block): Matrix {
    var off := c.block * h;
    match recv
    case None => Tab(h, dv, (i, j) => At(Mat(S, c.rank), off + i, j))
    case Some(m) => Tab(h, dv, (i, j) => At(Mat(S, c.rank), off + i, j) + At(m, i, j) * El(Vec(g, c.rank), off + i))
  }

  /** B rings up the ranks. No dispatch takes a tensor that another produces. */
  function Forward(S: seq<Matrix>, g: seq<Vector>, P: nat, B: nat, K: nat, h: nat, dv: nat): M.Program<Matrix> {
    M.Program(P, B, K, _ => M.Up, (_, _) => {}, (_, _) => 0, (_, _) => false,
      (c, _, recv) => ForwardBlock(S, g, h, dv, c, recv),
      (_, _, _) => M.None,
      (c, _, recv) => ForwardBlock(S, g, h, dv, c, recv))
  }

  function ScanRows(S: seq<Matrix>, g: seq<Vector>, h: nat, dv: nat, p: int, off: int): Matrix {
    Tab(h, dv, (i, j) => Scan(S, g, p, off + i, j))
  }

  function ForwardSpec(S: seq<Matrix>, g: seq<Vector>, h: nat, dv: nat): Spec<Matrix> {
    Spec((c: M.Cell) => ScanRows(S, g, h, dv, c.rank, c.block * h), _ => M.None,
      (c: M.Cell) => ScanRows(S, g, h, dv, c.rank, c.block * h))
  }

  lemma ForwardFirst(S: seq<Matrix>, g: seq<Vector>, h: nat, dv: nat, k: int, t: int)
    ensures ForwardBlock(S, g, h, dv, M.Cell(0, t, k), M.None) == ScanRows(S, g, h, dv, 0, k * h)
  {
    hide At, El, Mat, Vec;
    var m, n := ForwardBlock(S, g, h, dv, M.Cell(0, t, k), M.None), ScanRows(S, g, h, dv, 0, k * h);
    forall i, j | 0 <= i < h && 0 <= j < dv ensures At(m, i, j) == At(n, i, j) {
      ScanFirst(S, g, k * h + i, j);
    }
    SameMatrix(m, n, h, dv);
  }

  lemma ForwardNext(S: seq<Matrix>, g: seq<Vector>, h: nat, dv: nat, p: int, k: int, t: int)
    requires 0 < p
    ensures ForwardBlock(S, g, h, dv, M.Cell(p, t, k), M.Some(ScanRows(S, g, h, dv, p - 1, k * h)))
      == ScanRows(S, g, h, dv, p, k * h)
  {
    hide At, El, Mat, Vec, Scan;
    var off := k * h;
    var m, n := ForwardBlock(S, g, h, dv, M.Cell(p, t, k), M.Some(ScanRows(S, g, h, dv, p - 1, off))),
      ScanRows(S, g, h, dv, p, off);
    forall i, j | 0 <= i < h && 0 <= j < dv ensures At(m, i, j) == At(n, i, j) {
      ScanStep(S, g, p, off + i, j);
    }
    SameMatrix(m, n, h, dv);
  }

  lemma ForwardSolves(S: seq<Matrix>, g: seq<Vector>, P: nat, B: nat, K: nat, h: nat, dv: nat)
    ensures Solves(Forward(S, g, P, B, K, h, dv), ForwardSpec(S, g, h, dv))
  {
    hide ForwardBlock, ScanRows;
    var p, sp := Forward(S, g, P, B, K, h, dv), ForwardSpec(S, g, h, dv);
    forall c: M.Cell, mem: M.Mem<Matrix> | p.Has(c) ensures KernelsRight(p, sp, c, mem) {
      if c.rank == 0 {
        ForwardFirst(S, g, h, dv, c.block, c.task);
      } else {
        ForwardNext(S, g, h, dv, c.rank, c.block, c.task);
      }
    }
  }

  function UpLevel(r: int, t: int): nat {
    if r < 0 then 0 else r
  }

  lemma ForwardLevelled(S: seq<Matrix>, g: seq<Vector>, P: nat, B: nat, K: nat, h: nat, dv: nat)
    ensures Levelled(Forward(S, g, P, B, K, h, dv), UpLevel)
  {}

  lemma RingBound(p: M.Program<Matrix>, win: map<M.Cell, Matrix>, mem: M.Mem<Matrix>, acts: seq<M.Act>, P: nat, B: nat,
                  K: nat)
    requires p.Valid() && p.P == P && p.N == B && p.K == K && M.After(p, M.Initial(p, win, mem), acts).Some?
    ensures |acts| <= P * (B * (5 * K + 1))
  {
    hide M.After, M.Initial;
    RunsAreFinite(p, win, mem, acts);
  }

  /** Every output slice of a finished forward run is the single-ring AllScan. */
  ghost predicate ForwardDone(S: seq<Matrix>, g: seq<Vector>, P: nat, B: nat, K: nat, h: nat, dv: nat,
                              s: M.State<Matrix>)
    requires 0 < h
  {
    && (forall b, r, k | 0 <= b < B && 0 <= r < P && 0 <= k < K ::
          BlockHolds(s.mem.out, M.Cell(r, b, k), h, dv, (i, j) => Scan(S, g, r, k * h + i, j)))
    && (forall b, r, i, j | 0 <= b < B && 0 <= r < P && 0 <= i < K * h && 0 <= j < dv ::
          Read(s.mem.out, h, r, b, i, j) == Scan(S, g, r, i, j))
  }

  /** The forward rings, on every interleaving and every per-rank order of the
      B dispatches: the invariant holds throughout, every run goes on to a
      finished one, a run has finished exactly when nothing can be appended to
      it, and then each output slice is the single-ring AllScan. */
  lemma ForwardRings(S: seq<Matrix>, g: seq<Vector>, P: nat, B: nat, K: nat, h: nat, dv: nat,
                     win: map<M.Cell, Matrix>, mem: M.Mem<Matrix>, acts: seq<M.Act>)
    requires 2 <= P && 1 <= K && 0 < h
    requires M.After(Forward(S, g, P, B, K, h, dv), M.Initial(Forward(S, g, P, B, K, h, dv), win, mem), acts).Some?
    ensures var p := Forward(S, g, P, B, K, h, dv);
      var s0 := M.Initial(p, win, mem);
      var s := M.After(p, s0, acts).value;
      && |acts| <= P * (B * (5 * K + 1))
      && Invariant(p, ForwardSpec(S, g, h, dv), mem.aux, s)
      && (M.Finishes(p, s0, acts) <==> forall a: M.Act :: M.After(p, s0, acts + [a]).None?)
      && (M.Finishes(p, s0, acts) ==> ForwardDone(S, g, P, B, K, h, dv, s))
    ensures var p := Forward(S, g, P, B, K, h, dv);
      exists all: seq<M.Act> :: acts <= all && M.Finishes(p, M.Initial(p, win, mem), all)
  {
    hide Invariant, Levelled, Solves, M.After, M.Initial, M.Complete, Results, ForwardDone, Forward, ForwardSpec;
    ForwardShape(S, g, P, B, K, h, dv);
    var p, sp := Forward(S, g, P, B, K, h, dv), ForwardSpec(S, g, h, dv);
    ForwardSolves(S, g, P, B, K, h, dv);
    ForwardLevelled(S, g, P, B, K, h, dv);
    RingBound(p, win, mem, acts, P, B, K);
    InvAlways(p, sp, win, mem, acts);
    EveryRunCompletes(p, sp, UpLevel, win, mem, acts);
    var s := M.After(p, M.Initial(p, win, mem), acts).value;
    if Results(p, sp, mem.aux, s) { ForwardReads(S, g, P, B, K, h, dv, mem.aux, s); }
  }

  lemma ForwardReads(S: seq<Matrix>, g: seq<Vector>, P: nat, B: nat, K: nat, h: nat, dv: nat,
                     aux0: map<M.Cell, Matrix>, s: M.State<Matrix>)
    requires 0 < h && Results(Forward(S, g, P, B, K, h, dv), ForwardSpec(S, g, h, dv), aux0, s)
    ensures ForwardDone(S, g, P, B, K, h, dv, s)
  {
    hide Results, Scan, Read, BlockHolds;
    forall b, r, k | 0 <= b < B && 0 <= r < P && 0 <= k < K
      ensures BlockHolds(s.mem.out, M.Cell(r, b, k), h, dv, (i, j) => Scan(S, g, r, k * h + i, j))
    {
      ForwardBlockRead(S, g, P, B, K, h, dv, aux0, s, M.Cell(r, b, k));
    }
    forall b, r, i, j | 0 <= b < B && 0 <= r < P && 0 <= i < K * h && 0 <= j < dv
      ensures Read(s.mem.out, h, r, b, i, j) == Scan(S, g, r, i, j)
    {
      RowInBlock(K, h, i);
      ForwardRead(S, g, P, B, K, h, dv, aux0, s, b, r, i, j);
    }
  }

  lemma ForwardBlockRead(S: seq<Matrix>, g: seq<Vector>, P: nat, B: nat, K: nat, h: nat, dv: nat,
                         aux0: map<M.Cell, Matrix>, s: M.State<Matrix>, c: M.Cell)
    requires Results(Forward(S, g, P, B, K, h, dv), ForwardSpec(S, g, h, dv), aux0, s)
    requires 0 <= c.task < B && 0 <= c.rank < P && 0 <= c.block < K
    ensures BlockHolds(s.mem.out, c, h, dv, (i, j) => Scan(S, g, c.rank, c.block * h + i, j))
  {
    hide Scan, At, BlockHolds;
    assert Forward(S, g, P, B, K, h, dv).Has(c);
    assert M.Look(s.mem.out, c) == M.Some(ScanRows(S, g, h, dv, c.rank, c.block * h));
    StoredHolds(s.mem.out, c, h, dv, (i, j) => Scan(S, g, c.rank, c.block * h + i, j));
  }

  lemma ForwardShape(S: seq<Matrix>, g: seq<Vector>, P: nat, B: nat, K: nat, h: nat, dv: nat)
    requires 1 <= K
    ensures var p := Forward(S, g, P, B, K, h, dv); p.Valid() && p.P == P && p.N == B && p.K == K
  {}

  /** What a forward run can do next: any ring not yet routed on a rank may be
      routed there, and any rank may go on with its ring unless the rank below has
      not got past the notify of the current block. */
  lemma ForwardSteps(S: seq<Matrix>, g: seq<Vector>, P: nat, B: nat, K: nat, h: nat, dv: nat,
                     win: map<M.Cell, Matrix>, mem: M.Mem<Matrix>, acts: seq<M.Act>, r: int, b: int)
    requires 1 <= K
    requires M.After(Forward(S, g, P, B, K, h, dv), M.Initial(Forward(S, g, P, B, K, h, dv), win, mem), acts).Some?
    ensures var p := Forward(S, g, P, B, K, h, dv);
      var s0 := M.Initial(p, win, mem);
      var s := M.After(p, s0, acts).value;
      && M.Shape(p, s)
      && (M.After(p, s0, acts + [M.RouteAct(r, b)]).Some? <==> 0 <= r < P && 0 <= b < B && b !in s.ranks[r].fifo)
      && (M.After(p, s0, acts + [M.ExecAct(r)]).Some? <==>
            && 0 <= r < P && s.ranks[r].pos < |s.ranks[r].fifo|
            && (0 < r ==> M.Prog(p, s, r - 1, s.ranks[r].fifo[s.ranks[r].pos]) >= 5 * s.ranks[r].blk + 4))
  {
    hide Solves, M.After, M.Initial, M.Prog, ForwardBlock, ForwardSpec;
    var p, sp := Forward(S, g, P, B, K, h, dv), ForwardSpec(S, g, h, dv);
    ForwardSolves(S, g, P, B, K, h, dv);
    ExecutesExactly(p, sp, win, mem, acts, r);
    RoutesExactly(p, win, mem, acts, r, b);
  }

  /** On the way: whatever the interleaving, a raised counter of rank r means its
      window block holds that block of out[r-1]. */
  lemma ForwardSafety(S: seq<Matrix>, g: seq<Vector>, P: nat, B: nat, K: nat, h: nat, dv: nat,
                      win: map<M.Cell, Matrix>, mem: M.Mem<Matrix>, acts: seq<M.Act>, c: M.Cell)
    requires 2 <= P && 1 <= K && 0 < h && 0 < c.rank < P && 0 <= c.task < B && 0 <= c.block < K
    requires M.After(Forward(S, g, P, B, K, h, dv), M.Initial(Forward(S, g, P, B, K, h, dv), win, mem), acts).Some?
    ensures var p := Forward(S, g, P, B, K, h, dv); var s := M.After(p, M.Initial(p, win, mem), acts).value;
      && M.Signal(s.sig, c) <= 1
      && (M.Signal(s.sig, c) == 1 ==>
           BlockHolds(s.win, c, h, dv, (i, j) => Scan(S, g, c.rank - 1, c.block * h + i, j)))
  {
    hide Invariant, Solves, Scan, M.After, At;
    var p, sp := Forward(S, g, P, B, K, h, dv), ForwardSpec(S, g, h, dv);
    ForwardSolves(S, g, P, B, K, h, dv);
    InvAlways(p, sp, win, mem, acts);
    SignalMeansData(p, sp, mem.aux, M.After(p, M.Initial(p, win, mem), acts).value, c);
  }

  lemma ForwardRead(S: seq<Matrix>, g: seq<Vector>, P: nat, B: nat, K: nat, h: nat, dv: nat,
                    aux0: map<M.Cell, Matrix>, s: M.State<Matrix>, b: int, r: int, i: int, j: int)
    requires Results(Forward(S, g, P, B, K, h, dv), ForwardSpec(S, g, h, dv), aux0, s)
    requires 0 <= b < B && 0 <= r < P && 0 < h && 0 <= i / h < K && 0 <= j < dv && 0 <= i % h < h
    requires i / h * h + i % h == i
    ensures Read(s.mem.out, h, r, b, i, j) == Scan(S, g, r, i, j)
  {
    hide Scan, At;
    var c := M.Cell(r, b, i / h);
    assert Forward(S, g, P, B, K, h, dv).Has(c);
    assert M.Look(s.mem.out, c) == M.Some(ScanRows(S, g, h, dv, r, i / h * h));
  }

  // ---------------------------------------------------------------------
  // Backward: program_backward.py and batched_backward_program.py
  // ---------------------------------------------------------------------

  /** source: d = g_out; middle and terminal: d = g_out + received. */
  function AdjointRows(gout: seq<Matrix>, h: nat, dv: nat, c: M.Cell, recv: Block): Matrix {
    var off := c.block * h;
    match recv
    case None => Tab(h, dv, (i, j) => At(Mat(gout, c.rank), off + i, j))
    case Some(m) => Tab(h, dv, (i, j) => At(Mat(gout, c.rank), off + i, j) + At(m, i, j))
  }

  /** gamma * d */
  function ScaledRows(g: seq<Vector>, d: Matrix, h: nat, dv: nat, c: M.Cell): Matrix {
    var off := c.block * h;
    Tab(h, dv, (i, j) => At(d, i, j) * El(Vec(g, c.rank), off + i))
  }

  /** row_sum(d * out_prev) */
  function RowSums(outPrev: seq<Matrix>, d: Matrix, h: nat, dv: nat, c: M.Cell): Matrix {
    var off := c.block * h;
    Tab(h, 1, (i, _) => RowSumAt(d, Mat(outPrev, c.rank), off, dv, i))
  }

  function RowSumAt(d: Matrix, out: Matrix, off: int, dv: nat, i: int): real {
    Sum(0, dv, j => At(d, i, j) * At(out, off + i, j))
  }

  /** B rings down the ranks; the terminal (rank 0) leaves dgamma alone. */
  function Backward(gout: seq<Matrix>, g: seq<Vector>, outPrev: seq<Matrix>, P: nat, B: nat, K: nat, h: nat,
                    dv: nat): M.Program<Matrix> {
    M.Program(P, B, K, _ => M.Down, (_, _) => {}, (_, _) => 0, (_, _) => false,
      (c, _, recv) => AdjointRows(gout, h, dv, c, recv),
      (c: M.Cell, _, recv) => if c.rank == 0 then M.None
        else M.Some(RowSums(outPrev, AdjointRows(gout, h, dv, c, recv), h, dv, c)),
      (c, _, recv) => ScaledRows(g, AdjointRows(gout, h, dv, c, recv), h, dv, c))
  }

  function AdjRows(g: seq<Vector>, gout: seq<Matrix>, h: nat, dv: nat, p: int, off: int): Matrix {
    Tab(h, dv, (i, j) => ScanAdj(g, gout, p, off + i, j))
  }

  function BackwardSpec(gout: seq<Matrix>, g: seq<Vector>, outPrev: seq<Matrix>, h: nat, dv: nat): Spec<Matrix> {
    Spec((c: M.Cell) => AdjRows(g, gout, h, dv, c.rank, c.block * h),
         (c: M.Cell) => if c.rank == 0 then M.None
           else M.Some(RowSums(outPrev, AdjRows(g, gout, h, dv, c.rank, c.block * h), h, dv, c)),
         (c: M.Cell) => ScaledRows(g, AdjRows(g, gout, h, dv, c.rank, c.block * h), h, dv, c))
  }

  lemma BackwardSource(gout: seq<Matrix>, g: seq<Vector>, h: nat, dv: nat, c: M.Cell)
    requires c.rank == |gout| - 1
    ensures AdjointRows(gout, h, dv, c, M.None) == AdjRows(g, gout, h, dv, c.rank, c.block * h)
  {
    hide At, El, Mat, Vec;
    var m, n := AdjointRows(gout, h, dv, c, M.None), AdjRows(g, gout, h, dv, c.rank, c.block * h);
    forall i, j | 0 <= i < h && 0 <= j < dv ensures At(m, i, j) == At(n, i, j) {
      AdjLast(g, gout, c.block * h + i, j);
    }
    SameMatrix(m, n, h, dv);
  }

  lemma BackwardNext(gout: seq<Matrix>, g: seq<Vector>, h: nat, dv: nat, c: M.Cell)
    requires c.rank < |gout| - 1
    ensures var up := M.Cell(c.rank + 1, c.task, c.block);
      AdjointRows(gout, h, dv, c, M.Some(ScaledRows(g, AdjRows(g, gout, h, dv, up.rank, c.block * h), h, dv, up)))
      == AdjRows(g, gout, h, dv, c.rank, c.block * h)
  {
    hide At, El, Mat, Vec, ScanAdj;
    var up, off := M.Cell(c.rank + 1, c.task, c.block), c.block * h;
    var recv := ScaledRows(g, AdjRows(g, gout, h, dv, up.rank, off), h, dv, up);
    var m, n := AdjointRows(gout, h, dv, c, M.Some(recv)), AdjRows(g, gout, h, dv, c.rank, off);
    forall i, j | 0 <= i < h && 0 <= j < dv ensures At(m, i, j) == At(n, i, j) {
      ScanAdjStep(g, gout, c.rank, off + i, j);
    }
    SameMatrix(m, n, h, dv);
  }

  lemma BackwardSolves(gout: seq<Matrix>, g: seq<Vector>, outPrev: seq<Matrix>, P: nat, B: nat, K: nat, h: nat, dv: nat)
    requires |gout| == P
    ensures Solves(Backward(gout, g, outPrev, P, B, K, h, dv), BackwardSpec(gout, g, outPrev, h, dv))
  {
    hide AdjointRows, AdjRows, ScaledRows, RowSums;
    var p, sp := Backward(gout, g, outPrev, P, B, K, h, dv), BackwardSpec(gout, g, outPrev, h, dv);
    forall c: M.Cell, mem: M.Mem<Matrix> | p.Has(c) ensures KernelsRight(p, sp, c, mem) {
      if c.rank == P - 1 { BackwardSource(gout, g, h, dv, c); } else { BackwardNext(gout, g, h, dv, c); }
    }
  }

  function DownLevel(P: nat): (int, int) -> nat {
    (r: int, _: int) => if P < r then 0 else P - r
  }

  lemma BackwardLevelled(gout: seq<Matrix>, g: seq<Vector>, outPrev: seq<Matrix>, P: nat, B: nat, K: nat, h: nat,
                         dv: nat)
    ensures Levelled(Backward(gout, g, outPrev, P, B, K, h, dv), DownLevel(P))
  {}

  /** out_prev is the forward outputs shifted up one rank. */
  ghost predicate ShiftedUp(outs: seq<Matrix>, outPrev: seq<Matrix>) {
    |outPrev| == |outs| && forall p | 0 < p < |outs| :: outPrev[p] == outs[p - 1]
  }

  /** dS and dgamma of a finished backward run. Rank 0's dgamma is what the
      host left in the buffer. */
  ghost predicate BackwardDone(gout: seq<Matrix>, g: seq<Vector>, outs: seq<Matrix>, P: nat, B: nat, K: nat, h: nat,
                               dv: nat, aux0: map<M.Cell, Matrix>, s: M.State<Matrix>)
    requires 0 < h
  {
    && (forall b, r, i, j | 0 <= b < B && 0 <= r < P && 0 <= i < K * h && 0 <= j < dv ::
         Read(s.mem.out, h, r, b, i, j) == ScanAdj(g, gout, r, i, j))
    && (forall b, r, i | 0 <= b < B && 0 < r < P && 0 <= i < K * h ::
         Read(s.mem.aux, h, r, b, i, 0) == GammaGrad(g, outs, gout, dv, r, i))
    && (forall b, i | 0 <= b < B && 0 <= i < K * h :: Read(s.mem.aux, h, 0, b, i, 0) == Read(aux0, h, 0, b, i, 0))
    && (forall b, r, k | 0 <= b < B && 0 <= r < P && 0 <= k < K ::
          BlockHolds(s.mem.out, M.Cell(r, b, k), h, dv, (i, j) => ScanAdj(g, gout, r, k * h + i, j)))
    && (forall b, r, k | 0 <= b < B && 0 < r < P && 0 <= k < K ::
          BlockHolds(s.mem.aux, M.Cell(r, b, k), h, 1, (i, _) => GammaGrad(g, outs, gout, dv, r, k * h + i)))
    && (forall b, k | 0 <= b < B && 0 <= k < K && M.Cell(0, b, k) in aux0 ::
          M.Cell(0, b, k) in s.mem.aux && s.mem.aux[M.Cell(0, b, k)] == aux0[M.Cell(0, b, k)])
  }

  /** The reverse rings, on every interleaving and every per-rank order of the
      B dispatches. */
  lemma BackwardRings(gout: seq<Matrix>, g: seq<Vector>, outs: seq<Matrix>, outPrev: seq<Matrix>, P: nat, B: nat,
                      K: nat, h: nat, dv: nat, win: map<M.Cell, Matrix>, mem: M.Mem<Matrix>, acts: seq<M.Act>)
    requires 2 <= P == |gout| == |outs| && 1 <= K && 0 < h && ShiftedUp(outs, outPrev)
    requires M.After(Backward(gout, g, outPrev, P, B, K, h, dv),
      M.Initial(Backward(gout, g, outPrev, P, B, K, h, dv), win, mem), acts).Some?
    ensures var p := Backward(gout, g, outPrev, P, B, K, h, dv);
      var s0 := M.Initial(p, win, mem);
      var s := M.After(p, s0, acts).value;
      && |acts| <= P * (B * (5 * K + 1))
      && Invariant(p, BackwardSpec(gout, g, outPrev, h, dv), mem.aux, s)
      && (M.Finishes(p, s0, acts) <==> forall a: M.Act :: M.After(p, s0, acts + [a]).None?)
      && (M.Finishes(p, s0, acts) ==> BackwardDone(gout, g, outs, P, B, K, h, dv, mem.aux, s))
    ensures var p := Backward(gout, g, outPrev, P, B, K, h, dv);
      exists all: seq<M.Act> :: acts <= all && M.Finishes(p, M.Initial(p, win, mem), all)
  {
    hide Invariant, Levelled, Solves, M.After, M.Initial, M.Complete, Results, BackwardDone, ShiftedUp, Backward,
      BackwardSpec;
    BackwardShape(gout, g, outPrev, P, B, K, h, dv);
    var p, sp := Backward(gout, g, outPrev, P, B, K, h, dv), BackwardSpec(gout, g, outPrev, h, dv);
    BackwardSolves(gout, g, outPrev, P, B, K, h, dv);
    BackwardLevelled(gout, g, outPrev, P, B, K, h, dv);
    RingBound(p, win, mem, acts, P, B, K);
    InvAlways(p, sp, win, mem, acts);
    EveryRunCompletes(p, sp, DownLevel(P), win, mem, acts);
    var s := M.After(p, M.Initial(p, win, mem), acts).value;
    if Results(p, sp, mem.aux, s) { BackwardRead(gout, g, outs, outPrev, P, B, K, h, dv, mem.aux, s); }
  }

  lemma BackwardShape(gout: seq<Matrix>, g: seq<Vector>, outPrev: seq<Matrix>, P: nat, B: nat, K: nat, h: nat, dv: nat)
    requires 1 <= K
    ensures var p := Backward(gout, g, outPrev, P, B, K, h, dv); p.Valid() && p.P == P && p.N == B && p.K == K
  {}

  /** What a reverse run can do next, as in ForwardSteps with the rank above. */
  lemma BackwardSteps(gout: seq<Matrix>, g: seq<Vector>, outPrev: seq<Matrix>, P: nat, B: nat, K: nat, h: nat, dv: nat,
                      win: map<M.Cell, Matrix>, mem: M.Mem<Matrix>, acts: seq<M.Act>, r: int, b: int)
    requires 1 <= K && |gout| == P
    requires M.After(Backward(gout, g, outPrev, P, B, K, h, dv),
      M.Initial(Backward(gout, g, outPrev, P, B, K, h, dv), win, mem), acts).Some?
    ensures var p := Backward(gout, g, outPrev, P, B, K, h, dv);
      var s0 := M.Initial(p, win, mem);
      var s := M.After(p, s0, acts).value;
      && M.Shape(p, s)
      && (M.After(p, s0, acts + [M.RouteAct(r, b)]).Some? <==> 0 <= r < P && 0 <= b < B && b !in s.ranks[r].fifo)
      && (M.After(p, s0, acts + [M.ExecAct(r)]).Some? <==>
            && 0 <= r < P && s.ranks[r].pos < |s.ranks[r].fifo|
            && (r < P - 1 ==> M.Prog(p, s, r + 1, s.ranks[r].fifo[s.ranks[r].pos]) >= 5 * s.ranks[r].blk + 4))
  {
    hide Solves, M.After, M.Initial, M.Prog, AdjointRows, BackwardSpec;
    var p, sp := Backward(gout, g, outPrev, P, B, K, h, dv), BackwardSpec(gout, g, outPrev, h, dv);
    BackwardSolves(gout, g, outPrev, P, B, K, h, dv);
    ExecutesExactly(p, sp, win, mem, acts, r);
    RoutesExactly(p, win, mem, acts, r, b);
  }

  /** On the way down: a raised counter of rank r means its window block holds
      gamma[r+1] * d[r+1]. */
  lemma BackwardSafety(gout: seq<Matrix>, g: seq<Vector>, outPrev: seq<Matrix>, P: nat, B: nat, K: nat, h: nat, dv: nat,
                       win: map<M.Cell, Matrix>, mem: M.Mem<Matrix>, acts: seq<M.Act>, c: M.Cell)
    requires 2 <= P == |gout| && 1 <= K && 0 < h && 0 <= c.rank < P - 1 && 0 <= c.task < B && 0 <= c.block < K
    requires M.After(Backward(gout, g, outPrev, P, B, K, h, dv),
      M.Initial(Backward(gout, g, outPrev, P, B, K, h, dv), win, mem), acts).Some?
    ensures var p := Backward(gout, g, outPrev, P, B, K, h, dv);
      var s := M.After(p, M.Initial(p, win, mem), acts).value;
      && M.Signal(s.sig, c) <= 1
      && (M.Signal(s.sig, c) == 1 ==>
            BlockHolds(s.win, c, h, dv,
              (i, j) => ScanAdj(g, gout, c.rank + 1, c.block * h + i, j) * El(Vec(g, c.rank + 1), c.block * h + i)))
  {
    hide Invariant, Solves, ScanAdj, M.After, At, El;
    var p, sp := Backward(gout, g, outPrev, P, B, K, h, dv), BackwardSpec(gout, g, outPrev, h, dv);
    BackwardSolves(gout, g, outPrev, P, B, K, h, dv);
    InvAlways(p, sp, win, mem, acts);
    SignalMeansData(p, sp, mem.aux, M.After(p, M.Initial(p, win, mem), acts).value, c);
  }

  lemma BackwardRead(gout: seq<Matrix>, g: seq<Vector>, outs: seq<Matrix>, outPrev: seq<Matrix>, P: nat, B: nat, K: nat,
                     h: nat, dv: nat, aux0: map<M.Cell, Matrix>, s: M.State<Matrix>)
    requires 0 < P == |outs| && 0 < h && ShiftedUp(outs, outPrev)
    requires Results(Backward(gout, g, outPrev, P, B, K, h, dv), BackwardSpec(gout, g, outPrev, h, dv), aux0, s)
    ensures BackwardDone(gout, g, outs, P, B, K, h, dv, aux0, s)
  {
    hide ScanAdj, GammaGrad, Read, Results, ShiftedUp, BlockHolds;
    forall b, r, k | 0 <= b < B && 0 <= r < P && 0 <= k < K
      ensures BlockHolds(s.mem.out, M.Cell(r, b, k), h, dv, (i, j) => ScanAdj(g, gout, r, k * h + i, j))
    {
      AdjointBlock(gout, g, outPrev, P, B, K, h, dv, aux0, s, M.Cell(r, b, k));
    }
    forall b, r, k | 0 <= b < B && 0 < r < P && 0 <= k < K
      ensures BlockHolds(s.mem.aux, M.Cell(r, b, k), h, 1, (i, _) => GammaGrad(g, outs, gout, dv, r, k * h + i))
    {
      GammaBlock(gout, g, outs, outPrev, P, B, K, h, dv, aux0, s, M.Cell(r, b, k));
    }
    forall b, k | 0 <= b < B && 0 <= k < K && M.Cell(0, b, k) in aux0
      ensures M.Cell(0, b, k) in s.mem.aux && s.mem.aux[M.Cell(0, b, k)] == aux0[M.Cell(0, b, k)]
    {
      TerminalBlock(gout, g, outPrev, P, B, K, h, dv, aux0, s, M.Cell(0, b, k));
    }
    forall b, r, i, j | 0 <= b < B && 0 <= r < P && 0 <= i < K * h && 0 <= j < dv
      ensures Read(s.mem.out, h, r, b, i, j) == ScanAdj(g, gout, r, i, j)
    {
      RowInBlock(K, h, i);
      AdjointRead(gout, g, outPrev, P, B, K, h, dv, aux0, s, M.Cell(r, b, i / h), i, j);
    }
    forall b, r, i | 0 <= b < B && 0 < r < P && 0 <= i < K * h
      ensures Read(s.mem.aux, h, r, b, i, 0) == GammaGrad(g, outs, gout, dv, r, i)
    {
      RowInBlock(K, h, i);
      GammaRead(gout, g, outs, outPrev, P, B, K, h, dv, aux0, s, M.Cell(r, b, i / h), i);
    }
    forall b, i | 0 <= b < B && 0 <= i < K * h ensures Read(s.mem.aux, h, 0, b, i, 0) == Read(aux0, h, 0, b, i, 0) {
      RowInBlock(K, h, i);
      TerminalRead(gout, g, outPrev, P, B, K, h, dv, aux0, s, M.Cell(0, b, i / h), i);
    }
  }

  lemma AdjointBlock(gout: seq<Matrix>, g: seq<Vector>, outPrev: seq<Matrix>, P: nat, B: nat, K: nat, h: nat, dv: nat,
                     aux0: map<M.Cell, Matrix>, s: M.State<Matrix>, c: M.Cell)
    requires Results(Backward(gout, g, outPrev, P, B, K, h, dv), BackwardSpec(gout, g, outPrev, h, dv), aux0, s)
    requires 0 <= c.task < B && 0 <= c.rank < P && 0 <= c.block < K
    ensures BlockHolds(s.mem.out, c, h, dv, (i, j) => ScanAdj(g, gout, c.rank, c.block * h + i, j))
  {
    hide ScanAdj, At, BlockHolds, RowSums;
    assert Backward(gout, g, outPrev, P, B, K, h, dv).Has(c);
    assert M.Look(s.mem.out, c) == M.Some(AdjRows(g, gout, h, dv, c.rank, c.block * h));
    StoredHolds(s.mem.out, c, h, dv, (i, j) => ScanAdj(g, gout, c.rank, c.block * h + i, j));
  }

  lemma GammaBlock(gout: seq<Matrix>, g: seq<Vector>, outs: seq<Matrix>, outPrev: seq<Matrix>, P: nat, B: nat, K: nat,
                   h: nat, dv: nat, aux0: map<M.Cell, Matrix>, s: M.State<Matrix>, c: M.Cell)
    requires Results(Backward(gout, g, outPrev, P, B, K, h, dv), BackwardSpec(gout, g, outPrev, h, dv), aux0, s)
    requires 0 <= c.task < B && 0 < c.rank < P == |outs| && 0 <= c.block < K && ShiftedUp(outs, outPrev)
    ensures BlockHolds(s.mem.aux, c, h, 1, (i, _) => GammaGrad(g, outs, gout, dv, c.rank, c.block * h + i))
  {
    hide GammaGrad, At, AdjRows, RowSumAt, BlockHolds, ShiftedUp;
    assert Backward(gout, g, outPrev, P, B, K, h, dv).Has(c);
    var m := RowSums(outPrev, AdjRows(g, gout, h, dv, c.rank, c.block * h), h, dv, c);
    assert M.Look(s.mem.aux, c) == M.Some(m);
    forall i, j | 0 <= i < h && 0 <= j < 1
      ensures At(m, i, j) == GammaGrad(g, outs, gout, dv, c.rank, c.block * h + i)
    {
      GammaRowIs(gout, g, outs, outPrev, h, dv, c, c.block * h + i);
      assert c.block * h + i - c.block * h == i;
    }
    StoredHolds(s.mem.aux, c, h, 1, (i, _) => GammaGrad(g, outs, gout, dv, c.rank, c.block * h + i));
  }

  lemma TerminalBlock(gout: seq<Matrix>, g: seq<Vector>, outPrev: seq<Matrix>, P: nat, B: nat, K: nat, h: nat, dv: nat,
                      aux0: map<M.Cell, Matrix>, s: M.State<Matrix>, c: M.Cell)
    requires Results(Backward(gout, g, outPrev, P, B, K, h, dv), BackwardSpec(gout, g, outPrev, h, dv), aux0, s)
    requires 0 <= c.task < B && 0 == c.rank < P && 0 <= c.block < K && c in aux0
    ensures c in s.mem.aux && s.mem.aux[c] == aux0[c]
  {
    hide AdjRows, RowSums;
    assert Backward(gout, g, outPrev, P, B, K, h, dv).Has(c);
    assert M.Look(s.mem.aux, c) == M.Look(aux0, c);
  }

  lemma AdjointRead(gout: seq<Matrix>, g: seq<Vector>, outPrev: seq<Matrix>, P: nat, B: nat, K: nat, h: nat, dv: nat,
                    aux0: map<M.Cell, Matrix>, s: M.State<Matrix>, c: M.Cell, i: int, j: int)
    requires Results(Backward(gout, g, outPrev, P, B, K, h, dv), BackwardSpec(gout, g, outPrev, h, dv), aux0, s)
    requires Backward(gout, g, outPrev, P, B, K, h, dv).Has(c) && 0 < h && c.block == i / h && 0 <= i % h < h
    requires i / h * h + i % h == i && 0 <= j < dv
    ensures Read(s.mem.out, h, c.rank, c.task, i, j) == ScanAdj(g, gout, c.rank, i, j)
  {
    hide ScanAdj, At;
    assert M.Look(s.mem.out, c) == M.Some(AdjRows(g, gout, h, dv, c.rank, c.block * h));
  }

  lemma TerminalRead(gout: seq<Matrix>, g: seq<Vector>, outPrev: seq<Matrix>, P: nat, B: nat, K: nat, h: nat, dv: nat,
                     aux0: map<M.Cell, Matrix>, s: M.State<Matrix>, c: M.Cell, i: int)
    requires Results(Backward(gout, g, outPrev, P, B, K, h, dv), BackwardSpec(gout, g, outPrev, h, dv), aux0, s)
    requires Backward(gout, g, outPrev, P, B, K, h, dv).Has(c) && 0 < h && c.rank == 0 && c.block == i / h
    ensures Read(s.mem.aux, h, 0, c.task, i, 0) == Read(aux0, h, 0, c.task, i, 0)
  {
    hide At, M.Look;
    assert M.Look(s.mem.aux, c) == M.Look(aux0, c);
  }

  lemma GammaRead(gout: seq<Matrix>, g: seq<Vector>, outs: seq<Matrix>, outPrev: seq<Matrix>, P: nat, B: nat, K: nat,
                  h: nat, dv: nat, aux0: map<M.Cell, Matrix>, s: M.State<Matrix>, c: M.Cell, i: int)
    requires Results(Backward(gout, g, outPrev, P, B, K, h, dv), BackwardSpec(gout, g, outPrev, h, dv), aux0, s)
    requires Backward(gout, g, outPrev, P, B, K, h, dv).Has(c) && 0 < h && c.block == i / h && 0 <= i % h < h
    requires i / h * h + i % h == i
    requires ShiftedUp(outs, outPrev) && P == |outs| && 0 < c.rank
    ensures Read(s.mem.aux, h, c.rank, c.task, i, 0) == GammaGrad(g, outs, gout, dv, c.rank, i)
  {
    hide GammaGrad, At, AdjRows, Sum, M.Look;
    assert M.Look(s.mem.aux, c) == M.Some(RowSums(outPrev, AdjRows(g, gout, h, dv, c.rank, c.block * h), h, dv, c));
    GammaRowIs(gout, g, outs, outPrev, h, dv, c, i);
  }

  lemma GammaRowIs(gout: seq<Matrix>, g: seq<Vector>, outs: seq<Matrix>, outPrev: seq<Matrix>, h: nat, dv: nat,
                   c: M.Cell, i: int)
    requires ShiftedUp(outs, outPrev) && 0 < c.rank < |outs| && 0 <= i - c.block * h < h
    ensures At(RowSums(outPrev, AdjRows(g, gout, h, dv, c.rank, c.block * h), h, dv, c), i - c.block * h, 0)
      == GammaGrad(g, outs, gout, dv, c.rank, i)
  {
    hide ScanAdj, At, Sum;
    var off := c.block * h;
    var d := AdjRows(g, gout, h, dv, c.rank, off);
    assert Mat(outPrev, c.rank) == Mat(outs, c.rank - 1);
    SumExt(0, dv, j => At(d, i - off, j) * At(Mat(outPrev, c.rank), off + (i - off), j),
      j => ScanAdj(g, gout, c.rank, i, j) * At(Mat(outs, c.rank - 1), i, j));
  }
}
