/** The fused five-phase backward on the dispatch machine: recompute, forward
    ring, grad_o, reverse ring and grad_h, one dispatch of each per rank. The two
    rings run in opposite directions on separate windows. */
module FusedProgram {
  import opened Tensor
  import opened AllScan
  import opened RestructuredRun
  import opened Boundaries
  import M = Machine
  import RingPrograms
  import opened MachineSafety

  const RECOMPUTE := 0
  const FORWARD := 1
  const GRAD_O := 2
  const REVERSE := 3
  const GRAD_H := 4

  /** The tensors that one dispatch (or one block of a ring) stores. */
  type Tensors = seq<Matrix>

  /** The three local kernels: recompute(rank), grad_o(rank, recomputed,
      boundary) and grad_h(rank, recomputed, grad_o, dStot, dgam). */
  datatype Kernels = Kernels(
    recompute: int -> Tensors,
    gradO: (int, Tensors, Matrix) -> Tensors,
    gradH: (int, Tensors, Tensors, Matrix, Matrix) -> Tensors)

  /** Position of S_tot among the recompute outputs, and of dS_recv among the
      grad_o outputs. */
  const STOT := 2
  const DSRECV := 6

  datatype Params = Params(P: nat, K: nat, h: nat, dv: nat, g: seq<Vector>, ker: Kernels, token: bool) {
    ghost predicate Valid() { 2 <= P && 1 <= K && 0 < h }

    function Dk(): nat { K * h }
  }

  function Stored(m: map<M.Cell, Tensors>, c: M.Cell): Tensors {
    match M.Look(m, c) case None => [] case Some(v) => v
  }

  /** The whole tensor of a ring dispatch, from its K blocks of h rows. */
  function Gathered(x: Params, m: map<M.Cell, Tensors>, r: int, t: int, cols: nat): Matrix
    requires 0 < x.h
  {
    Tab(x.Dk(), cols, (i, j) => At(Mat(Stored(m, M.Cell(r, t, i / x.h)), 0), i % x.h, j))
  }

  /** The boundary tensor that grad_o and the reverse ring take: zeros on rank 0. */
  function BoundaryOf(x: Params, mem: M.Mem<Tensors>, r: int): Matrix
    requires 0 < x.h
  {
    if r == 0 then Zeros(x.Dk(), x.dv) else Gathered(x, mem.out, r, FORWARD, x.dv)
  }

  // ---------------------------------------------------------------------
  // Kernels of the two rings
  // ---------------------------------------------------------------------

  /** a + gamma * b on rows off .. off + h */
  function FusedRows(a: Matrix, g: Vector, b: Matrix, off: int, h: nat, cols: nat): Matrix {
    Tab(h, cols, (i, j) => At(a, off + i, j) + At(b, i, j) * El(g, off + i))
  }

  function ColumnSums(d: Matrix, s: Matrix, off: int, h: nat, dv: nat): Matrix {
    Tab(h, 1, (i, _) => RingPrograms.RowSumAt(d, s, off, dv, i))
  }

  function Received(recv: M.Option<Tensors>): Matrix {
    match recv case None => [] case Some(v) => Mat(v, 0)
  }

  /** first stores its own state; middle and last store the received block. */
  function StoreBlock(x: Params, c: M.Cell, mem: M.Mem<Tensors>, recv: M.Option<Tensors>): Tensors
    requires 0 < x.h
  {
    var off := c.block * x.h;
    if c.task == RECOMPUTE then x.ker.recompute(c.rank)
    else if c.task == FORWARD then
      (if c.rank == 0 then [Rows(Mat(Stored(mem.out, M.Cell(0, RECOMPUTE, 0)), STOT), off, x.h, x.dv)]
        else [Received(recv)])
    else if c.task == GRAD_O then
      x.ker.gradO(c.rank, Stored(mem.out, M.Cell(c.rank, RECOMPUTE, 0)), BoundaryOf(x, mem, c.rank))
    else if c.task == REVERSE then
      (if c.rank == x.P - 1 then [Zeros(x.h, x.dv)] else [Received(recv)])
    else
      x.ker.gradH(c.rank, Stored(mem.out, M.Cell(c.rank, RECOMPUTE, 0)), Stored(mem.out, M.Cell(c.rank, GRAD_O, 0)),
        Gathered(x, mem.out, c.rank, REVERSE, x.dv), Gathered(x, mem.aux, c.rank, REVERSE, 1))
  }

  /** dgam: zeros on both ends of the ring, the row sum against the rank's own
      received boundary in between. */
  function AuxBlock(x: Params, c: M.Cell, mem: M.Mem<Tensors>, recv: M.Option<Tensors>): M.Option<Tensors>
    requires 0 < x.h
  {
    if c.task != REVERSE then M.None
    else if c.rank == 0 || c.rank == x.P - 1 then M.Some([Zeros(x.h, 1)])
    else M.Some([ColumnSums(Received(recv), BoundaryOf(x, mem, c.rank), c.block * x.h, x.h, x.dv)])
  }

  function SendBlock(x: Params, c: M.Cell, mem: M.Mem<Tensors>, recv: M.Option<Tensors>): Tensors
    requires 0 < x.h
  {
    var off := c.block * x.h;
    if c.task == FORWARD then
      var local := Mat(Stored(mem.out, M.Cell(c.rank, RECOMPUTE, 0)), STOT);
      (if c.rank == 0 then [Rows(local, off, x.h, x.dv)]
        else [FusedRows(local, Vec(x.g, c.rank), Received(recv), off, x.h, x.dv)])
    else
      var dsr := Mat(Stored(mem.out, M.Cell(c.rank, GRAD_O, 0)), DSRECV);
      if c.rank == x.P - 1 then [Rows(dsr, off, x.h, x.dv)]
        else [FusedRows(dsr, Vec(x.g, c.rank), Received(recv), off, x.h, x.dv)]
  }

  /** Producers by tensor argument: rank 0's grad_o reads the host's zero
      tensor, and rank 0's terminal takes no produced tensor at all. */
  function TensorEdges(P: nat, r: int, t: int): set<int> {
    if t == FORWARD then {RECOMPUTE}
    else if t == GRAD_O then if r == 0 then {RECOMPUTE} else {RECOMPUTE, FORWARD}
    else if t == REVERSE then if r == P - 1 then {GRAD_O} else if r == 0 then {} else {GRAD_O, FORWARD}
    else if t == GRAD_H then {RECOMPUTE, GRAD_O, REVERSE}
    else {}
  }

  /** The ordering token adds a program-order edge between a rank's two ring
      dispatches. */
  function Edges(x: Params, r: int, t: int): set<int> {
    TensorEdges(x.P, r, t) + if x.token && t == REVERSE then {FORWARD} else {}
  }

  function KindOf(t: int): M.Kind {
    if t == FORWARD then M.Up else if t == REVERSE then M.Down else M.Compute
  }

  function Fused(x: Params): M.Program<Tensors>
    requires 0 < x.h
  {
    M.Program(x.P, 5, x.K, KindOf, (r, t) => Edges(x, r, t), (_, t: int) => if t < 0 then 0 else t,
      (r: int, _) => r == 0 || r == x.P - 1,
      (c, mem, recv) => StoreBlock(x, c, mem, recv),
      (c, mem, recv) => AuxBlock(x, c, mem, recv),
      (c, mem, recv) => SendBlock(x, c, mem, recv))
  }

  // ---------------------------------------------------------------------
  // The five phases run one after the other
  // ---------------------------------------------------------------------

  function LocalStates(x: Params): seq<Matrix> {
    seq(x.P, r => Mat(x.ker.recompute(r), STOT))
  }

  /** S_recv of rank r */
  function Boundary(x: Params, r: int): Matrix {
    RecvState(LocalStates(x), x.g, x.Dk(), x.dv, r)
  }

  function GradO(x: Params, r: int): Tensors {
    x.ker.gradO(r, x.ker.recompute(r), Boundary(x, r))
  }

  function RecvGradients(x: Params): seq<Matrix> {
    seq(x.P, r => Mat(GradO(x, r), DSRECV))
  }

  /** d of the standalone AllScan backward on the shifted dS_recv. */
  function D(x: Params, r: int, i: int, j: int): real {
    ScanAdj(x.g, Shifted(RecvGradients(x), x.Dk(), x.dv), r, i, j)
  }

  function DStot(x: Params, r: int): Matrix {
    Tab(x.Dk(), x.dv, (i, j) => D(x, r, i, j))
  }

  function Dgam(x: Params, r: int): Matrix {
    Tab(x.Dk(), 1, (i, _) => DgamAt(x, r, i))
  }

  function DgamAt(x: Params, r: int, i: int): real {
    if r == 0 || r == x.P - 1 then 0.0 else Sum(0, x.dv, j => D(x, r, i, j) * At(Boundary(x, r), i, j))
  }

  function GradH(x: Params, r: int): Tensors {
    x.ker.gradH(r, x.ker.recompute(r), GradO(x, r), DStot(x, r), Dgam(x, r))
  }

  function FusedSpec(x: Params): Spec<Tensors> {
    Spec((c: M.Cell) => OutSpec(x, c), (c: M.Cell) => AuxSpec(x, c), (c: M.Cell) => MsgSpec(x, c))
  }

  function ScanTab(x: Params, r: int, off: int): Matrix {
    Tab(x.h, x.dv, (i, j) => Scan(LocalStates(x), x.g, r, off + i, j))
  }

  function DTab(x: Params, r: int, off: int): Matrix {
    Tab(x.h, x.dv, (i, j) => D(x, r, off + i, j))
  }

  function DgamTab(x: Params, r: int, off: int): Matrix {
    Tab(x.h, 1, (i, _) => DgamAt(x, r, off + i))
  }

  function OutSpec(x: Params, c: M.Cell): Tensors {
    if c.task == RECOMPUTE then x.ker.recompute(c.rank)
    else if c.task == FORWARD then [ScanTab(x, if c.rank == 0 then 0 else c.rank - 1, c.block * x.h)]
    else if c.task == GRAD_O then GradO(x, c.rank)
    else if c.task == REVERSE then [DTab(x, c.rank, c.block * x.h)]
    else GradH(x, c.rank)
  }

  function AuxSpec(x: Params, c: M.Cell): M.Option<Tensors> {
    if c.task == REVERSE then M.Some([DgamTab(x, c.rank, c.block * x.h)]) else M.None
  }

  /** Forward messages are scan states; the reverse message of rank r is d[r-1]. */
  function MsgSpec(x: Params, c: M.Cell): Tensors {
    if c.task == FORWARD then [ScanTab(x, c.rank, c.block * x.h)] else [DTab(x, c.rank - 1, c.block * x.h)]
  }

  // ---------------------------------------------------------------------
  // The program computes the five phases
  // ---------------------------------------------------------------------

  lemma ProducerOut(x: Params, mem: M.Mem<Tensors>, r: int, t: int, u: int, k: int)
    requires 0 < x.h && Supplied(Fused(x), FusedSpec(x), mem, r, t) && u in Edges(x, r, t)
    requires 0 <= k < Fused(x).Blocks(u)
    ensures Stored(mem.out, M.Cell(r, u, k)) == OutSpec(x, M.Cell(r, u, k))
    ensures u == REVERSE ==> Stored(mem.aux, M.Cell(r, u, k)) == [DgamTab(x, r, k * x.h)]
  {
    hide OutSpec, DgamTab;
    assert Holds(FusedSpec(x), mem, M.Cell(r, u, k));
  }

  /** Reading K stored blocks of h rows gives the tensor they were cut from. */
  lemma GatheredIs(x: Params, m: map<M.Cell, Tensors>, r: int, t: int, cols: nat, whole: Matrix, f: (int, int) -> real)
    requires 0 < x.h && IsMatrix(whole, x.Dk(), cols)
    requires forall i, j | 0 <= i < x.Dk() && 0 <= j < cols :: At(whole, i, j) == f(i, j)
    requires forall k, i, j | 0 <= k < x.K && 0 <= i < x.h && 0 <= j < cols ::
      At(Mat(Stored(m, M.Cell(r, t, k)), 0), i, j) == f(k * x.h + i, j)
    ensures Gathered(x, m, r, t, cols) == whole
  {
    hide At, Mat, Stored;
    var got := Gathered(x, m, r, t, cols);
    forall i, j | 0 <= i < x.Dk() && 0 <= j < cols ensures At(got, i, j) == At(whole, i, j) {
      RowInBlock(x.K, x.h, i);
    }
    SameMatrix(got, whole, x.Dk(), cols);
  }

  lemma BoundaryRight(x: Params, mem: M.Mem<Tensors>, r: int, t: int)
    requires x.Valid() && Supplied(Fused(x), FusedSpec(x), mem, r, t) && 0 < r && FORWARD in Edges(x, r, t)
    ensures BoundaryOf(x, mem, r) == Boundary(x, r)
  {
    hide Scan, Supplied, Edges, Stored, LocalStates, At;
    var f := (i: int, j: int) => Scan(LocalStates(x), x.g, r - 1, i, j);
    forall k, i, j | 0 <= k < x.K && 0 <= i < x.h && 0 <= j < x.dv
      ensures At(Mat(Stored(mem.out, M.Cell(r, FORWARD, k)), 0), i, j) == f(k * x.h + i, j)
    {
      ProducerOut(x, mem, r, t, FORWARD, k);
    }
    GatheredIs(x, mem.out, r, FORWARD, x.dv, Boundary(x, r), f);
  }

  lemma StateOf(x: Params, r: int)
    requires 0 <= r < x.P
    ensures Mat(LocalStates(x), r) == Mat(x.ker.recompute(r), STOT)
    ensures Mat(RecvGradients(x), r) == Mat(GradO(x, r), DSRECV)
  {
    hide GradO;
  }

  lemma ScanTabFirst(x: Params, r: int, off: int)
    requires x.Valid() && r == 0
    ensures Rows(Mat(x.ker.recompute(r), STOT), off, x.h, x.dv) == ScanTab(x, r, off)
  {
    hide At, Mat, LocalStates, Scan;
    StateOf(x, r);
    var m, n := Rows(Mat(x.ker.recompute(r), STOT), off, x.h, x.dv), ScanTab(x, r, off);
    forall i, j | 0 <= i < x.h && 0 <= j < x.dv ensures At(m, i, j) == At(n, i, j) {
      ScanFirst(LocalStates(x), x.g, off + i, j);
    }
    SameMatrix(m, n, x.h, x.dv);
  }

  lemma ScanTabNext(x: Params, r: int, off: int)
    requires x.Valid() && 0 < r < x.P
    ensures FusedRows(Mat(x.ker.recompute(r), STOT), Vec(x.g, r), ScanTab(x, r - 1, off), off, x.h, x.dv)
      == ScanTab(x, r, off)
  {
    hide At, El, Mat, Vec, Scan, LocalStates;
    StateOf(x, r);
    var m, n := FusedRows(Mat(x.ker.recompute(r), STOT), Vec(x.g, r), ScanTab(x, r - 1, off), off, x.h, x.dv),
      ScanTab(x, r, off);
    forall i, j | 0 <= i < x.h && 0 <= j < x.dv ensures At(m, i, j) == At(n, i, j) {
      ScanStep(LocalStates(x), x.g, r, off + i, j);
      var prev := Scan(LocalStates(x), x.g, r - 1, off + i, j);
      assert At(ScanTab(x, r - 1, off), i, j) == prev;
      assert At(n, i, j) == Scan(LocalStates(x), x.g, r, off + i, j);
      assert At(m, i, j) == At(Mat(x.ker.recompute(r), STOT), off + i, j) + prev * El(Vec(x.g, r), off + i);
      assert At(Mat(x.ker.recompute(r), STOT), off + i, j) == At(Mat(LocalStates(x), r), off + i, j);
      assert Scan(LocalStates(x), x.g, r, off + i, j)
        == At(Mat(LocalStates(x), r), off + i, j)
        + El(Vec(x.g, r), off + i) * Scan(LocalStates(x), x.g, r - 1, off + i, j);
    }
    SameMatrix(m, n, x.h, x.dv);
  }

  lemma ForwardRight(x: Params, c: M.Cell, mem: M.Mem<Tensors>)
    requires x.Valid() && Fused(x).Has(c) && c.task == FORWARD && Supplied(Fused(x), FusedSpec(x), mem, c.rank, c.task)
    ensures KernelsRight(Fused(x), FusedSpec(x), c, mem)
  {
    hide Stored, Rows, FusedRows, ScanTab, DTab, Supplied;
    ProducerOut(x, mem, c.rank, c.task, RECOMPUTE, 0);
    if c.rank == 0 { ScanTabFirst(x, c.rank, c.block * x.h); } else { ScanTabNext(x, c.rank, c.block * x.h); }
  }

  lemma LocalRight(x: Params, c: M.Cell, mem: M.Mem<Tensors>)
    requires x.Valid() && Fused(x).Has(c) && (c.task == RECOMPUTE || c.task == GRAD_O)
    requires Supplied(Fused(x), FusedSpec(x), mem, c.rank, c.task)
    ensures KernelsRight(Fused(x), FusedSpec(x), c, mem)
  {
    hide Stored, Supplied, Gathered;
    if c.task == GRAD_O {
      ProducerOut(x, mem, c.rank, c.task, RECOMPUTE, 0);
      if 0 < c.rank { BoundaryRight(x, mem, c.rank, c.task); }
    }
  }

  lemma GradHRight(x: Params, c: M.Cell, mem: M.Mem<Tensors>)
    requires x.Valid() && Fused(x).Has(c) && c.task == GRAD_H && Supplied(Fused(x), FusedSpec(x), mem, c.rank, c.task)
    ensures KernelsRight(Fused(x), FusedSpec(x), c, mem)
  {
    hide Stored, Supplied, Gathered, D, DgamAt, At, GradO;
    var r := c.rank;
    ProducerOut(x, mem, r, c.task, RECOMPUTE, 0);
    ProducerOut(x, mem, r, c.task, GRAD_O, 0);
    var d, e := (i: int, j: int) => D(x, r, i, j), (i: int, j: int) => DgamAt(x, r, i);
    forall k, i, j | 0 <= k < x.K && 0 <= i < x.h && 0 <= j < x.dv
      ensures At(Mat(Stored(mem.out, M.Cell(r, REVERSE, k)), 0), i, j) == d(k * x.h + i, j)
    {
      ProducerOut(x, mem, r, c.task, REVERSE, k);
    }
    forall k, i, j | 0 <= k < x.K && 0 <= i < x.h && 0 <= j < 1
      ensures At(Mat(Stored(mem.aux, M.Cell(r, REVERSE, k)), 0), i, j) == e(k * x.h + i, j)
    {
      ProducerOut(x, mem, r, c.task, REVERSE, k);
    }
    GatheredIs(x, mem.out, r, REVERSE, x.dv, DStot(x, r), d);
    GatheredIs(x, mem.aux, r, REVERSE, 1, Dgam(x, r), e);
  }

  lemma SourceRows(x: Params, off: int)
    requires x.Valid()
    ensures Zeros(x.h, x.dv) == DTab(x, x.P - 1, off)
    ensures Rows(Mat(GradO(x, x.P - 1), DSRECV), off, x.h, x.dv) == DTab(x, x.P - 2, off)
  {
    hide At, El, Mat, Vec, ScanAdj, Shifted, RecvGradients, GradO;
    var dsr := RecvGradients(x);
    RecvCount(x);
    StateOf(x, x.P - 1);
    SourceZeros(x, off);
    var m, n := Rows(Mat(GradO(x, x.P - 1), DSRECV), off, x.h, x.dv), DTab(x, x.P - 2, off);
    forall i, j | 0 <= i < x.h && 0 <= j < x.dv ensures At(m, i, j) == At(n, i, j) {
      SourceZero(dsr, x.g, x.Dk(), x.dv, off + i, j);
      MessageAt(x, x.P - 1, off + i, j);
    }
    SameMatrix(m, n, x.h, x.dv);
  }

  lemma SourceZeros(x: Params, off: int)
    requires x.Valid()
    ensures Zeros(x.h, x.dv) == DTab(x, x.P - 1, off)
  {
    hide At, ScanAdj, Shifted, RecvGradients, GradO;
    RecvCount(x);
    var m, n := Zeros(x.h, x.dv), DTab(x, x.P - 1, off);
    forall i, j | 0 <= i < x.h && 0 <= j < x.dv ensures At(m, i, j) == At(n, i, j) {
      SourceZero(RecvGradients(x), x.g, x.Dk(), x.dv, off + i, j);
      assert At(m, i, j) == 0.0 && At(n, i, j) == D(x, x.P - 1, off + i, j);
    }
    SameMatrix(m, n, x.h, x.dv);
  }

  lemma RecvCount(x: Params)
    ensures |RecvGradients(x)| == x.P
  {}

  lemma MessageAt(x: Params, r: int, i: int, j: int)
    requires 0 < r < x.P
    ensures At(Mat(GradO(x, r), DSRECV), i, j) + D(x, r, i, j) * El(Vec(x.g, r), i) == D(x, r - 1, i, j)
  {
    hide At, El, Vec, ScanAdj, Shifted, RecvGradients, GradO;
    RecvCount(x);
    StateOf(x, r);
    FusedMessage(RecvGradients(x), x.g, x.Dk(), x.dv, r, i, j);
  }

  lemma MessageRows(x: Params, r: int, off: int)
    requires x.Valid() && 0 < r < x.P
    ensures FusedRows(Mat(GradO(x, r), DSRECV), Vec(x.g, r), DTab(x, r, off), off, x.h, x.dv) == DTab(x, r - 1, off)
  {
    hide At, El, Mat, Vec, D, GradO;
    var m, n := FusedRows(Mat(GradO(x, r), DSRECV), Vec(x.g, r), DTab(x, r, off), off, x.h, x.dv), DTab(x, r - 1, off);
    forall i, j | 0 <= i < x.h && 0 <= j < x.dv ensures At(m, i, j) == At(n, i, j) {
      MessageAt(x, r, off + i, j);
    }
    SameMatrix(m, n, x.h, x.dv);
  }

  lemma DgamRow(x: Params, r: int, off: int, i: int)
    requires 0 < r < x.P - 1 && 0 <= i < x.h
    ensures RingPrograms.RowSumAt(DTab(x, r, off), Boundary(x, r), off, x.dv, i) == DgamAt(x, r, off + i)
  {
    hide At, Sum, D, Boundary;
    var d, s := DTab(x, r, off), Boundary(x, r);
    SumExt(0, x.dv, j => At(d, i, j) * At(s, off + i, j), j => D(x, r, off + i, j) * At(s, off + i, j));
  }

  lemma DgamRows(x: Params, r: int, off: int)
    requires x.Valid() && 0 <= r < x.P
    ensures r == 0 || r == x.P - 1 ==> Zeros(x.h, 1) == DgamTab(x, r, off)
    ensures 0 < r < x.P - 1 ==> ColumnSums(DTab(x, r, off), Boundary(x, r), off, x.h, x.dv) == DgamTab(x, r, off)
  {
    hide At, Sum, D, Boundary;
    if r == 0 || r == x.P - 1 {
      var m, n := Zeros(x.h, 1), DgamTab(x, r, off);
      forall i, j | 0 <= i < x.h && 0 <= j < 1 ensures At(m, i, j) == At(n, i, j) {
        assert At(m, i, j) == 0.0 && At(n, i, j) == DgamAt(x, r, off + i);
      }
      SameMatrix(m, n, x.h, 1);
    } else {
      var d, s := DTab(x, r, off), Boundary(x, r);
      var m, n := ColumnSums(d, s, off, x.h, x.dv), DgamTab(x, r, off);
      forall i, j | 0 <= i < x.h && 0 <= j < 1 ensures At(m, i, j) == At(n, i, j) {
        DgamRow(x, r, off, i);
      }
      SameMatrix(m, n, x.h, 1);
    }
  }

  lemma ReverseRight(x: Params, c: M.Cell, mem: M.Mem<Tensors>)
    requires x.Valid() && Fused(x).Has(c) && c.task == REVERSE && Supplied(Fused(x), FusedSpec(x), mem, c.rank, c.task)
    ensures KernelsRight(Fused(x), FusedSpec(x), c, mem)
  {
    hide Stored, Rows, FusedRows, ScanTab, DTab, DgamTab, ColumnSums, Supplied, BoundaryOf, Boundary, GradO;
    var r, off := c.rank, c.block * x.h;
    DgamRows(x, r, off);
    if r == x.P - 1 {
      ProducerOut(x, mem, r, c.task, GRAD_O, 0);
      SourceRows(x, off);
    } else if 0 < r {
      ProducerOut(x, mem, r, c.task, GRAD_O, 0);
      BoundaryRight(x, mem, r, c.task);
      MessageRows(x, r, off);
    }
  }

  lemma FusedSolves(x: Params)
    requires x.Valid()
    ensures Solves(Fused(x), FusedSpec(x))
  {
    hide KernelsRight, Supplied;
    forall c: M.Cell, mem: M.Mem<Tensors> | Fused(x).Has(c) && Supplied(Fused(x), FusedSpec(x), mem, c.rank, c.task)
      ensures KernelsRight(Fused(x), FusedSpec(x), c, mem)
    {
      if c.task == FORWARD { ForwardRight(x, c, mem); }
      else if c.task == REVERSE { ReverseRight(x, c, mem); }
      else if c.task == GRAD_H { GradHRight(x, c, mem); }
      else { LocalRight(x, c, mem); }
    }
  }
}
