/** The two-rank scheduling probe (b4_tworing_wait_probe.py): one forward and
    one reverse transfer among trivial computes, in several arms that differ
    only in dispatch order, tensor edges and ring direction. */
module ProbeArms {
  import opened Tensor
  import opened Machine
  import opened MachineSafety
  import opened MachineLiveness
  import opened RoutingOrder

  /** Both and SendFirst: no edge from a rank's send to its recv; rank 1 waits
      first in Both and sends first in SendFirst. BothDep and SendFirstDep: the
      recv takes the send's output as an extra input, where the send comes first.
      SameDirection: both transfers go from rank 0 to rank 1. FusedComm: a rank's
      two transfers are one dispatch (module FusedComm). */
  datatype Arm = Both | SendFirst | BothDep | SendFirstDep | SameDirection | FusedComm

  // The dispatches of a rank; the two transfers keep their number on both ranks.
  const FIRST := 0
  const FWD := 1
  const MIDDLE := 2
  const SECOND := 3
  const LAST := 4

  /** FusedComm has no third compute. */
  function Dispatches(a: Arm): nat { if a.FusedComm? then 4 else 5 }

  function Kinds(a: Arm, t: int): Kind {
    if t == FWD then Up else if t == SECOND then (if a.SameDirection? then Up else Down) else Compute
  }

  predicate Receiving(a: Arm, r: int, t: int) {
    (t == FWD && r == 1) || (t == SECOND && if a.SameDirection? then r == 1 else r == 0)
  }

  predicate SendsEarly(a: Arm) { a.SendFirst? || a.SendFirstDep? }

  /** The dispatch whose output t reads; FIRST reads the program input. */
  function Operand(a: Arm, r: int, t: int): int {
    if t == MIDDLE || t == FWD then FIRST
    else if t == SECOND then (if r == 1 && (SendsEarly(a) || a.FusedComm?) then FIRST else MIDDLE)
    else MIDDLE
  }

  function Edges(a: Arm, r: int, t: int): set<int> {
    if t == FIRST then {}
    else if a.FusedComm? then {FIRST}
    else if !Receiving(a, r, t) then {Operand(a, r, t)}
    else if a.BothDep? then (if r == 0 then {FWD} else {FIRST})
    else if a.SendFirstDep? then (if r == 0 then {FWD} else {SECOND})
    else {}
  }

  /** Program order: with SendsEarly rank 1 sends second and waits fourth. */
  function Place(a: Arm, r: int, t: int): nat {
    if r == 1 && SendsEarly(a) && t == FWD then 3
    else if r == 1 && SendsEarly(a) && t == SECOND then 1
    else if t < 0 then 0 else t
  }

  function Twice(m: Matrix, D: nat): Matrix {
    Tab(D, D, (i, j) => At(m, i, j) + At(m, i, j))
  }

  function Output(mem: Mem<Matrix>, r: int, t: int): Matrix {
    match Look(mem.out, Cell(r, t, 0)) case None => [] case Some(m) => m
  }

  /** compute doubles, send echoes its operand, recv stores what arrived. */
  function Kernel(a: Arm, X: int -> Matrix, D: nat, c: Cell, mem: Mem<Matrix>, recv: Option<Matrix>): Matrix {
    if c.task == FIRST then Twice(X(c.rank), D)
    else if c.task == MIDDLE || c.task == LAST then Twice(Output(mem, c.rank, Operand(a, c.rank, c.task)), D)
    else if Receiving(a, c.rank, c.task) then (match recv case None => [] case Some(m) => m)
    else Output(mem, c.rank, Operand(a, c.rank, c.task))
  }

  function Probe(a: Arm, X: int -> Matrix, D: nat): Program<Matrix> {
    Program(2, Dispatches(a), 1, t => Kinds(a, t), (r, t) => Edges(a, r, t), (r, t) => Place(a, r, t), (_, _) => false,
      (c, mem, recv) => Kernel(a, X, D, c, mem, recv),
      (_, _, _) => None,
      (c: Cell, mem, _) => Output(mem, c.rank, Operand(a, c.rank, c.task)))
  }

  /** Doubled once, twice, three times along a rank's computes. */
  function Value(X: int -> Matrix, D: nat, r: int, t: int): Matrix {
    if t == FIRST then Twice(X(r), D)
    else if t == MIDDLE then Twice(Twice(X(r), D), D)
    else Twice(Twice(Twice(X(r), D), D), D)
  }

  function Sent(a: Arm, X: int -> Matrix, D: nat, r: int, t: int): Matrix {
    Value(X, D, r, Operand(a, r, t))
  }

  /** Both ends of a transfer hold the sender's operand. */
  function ProbeSpec(a: Arm, X: int -> Matrix, D: nat): Spec<Matrix> {
    Spec((c: Cell) =>
           if c.task != FWD && c.task != SECOND then Value(X, D, c.rank, c.task)
           else Sent(a, X, D, if Receiving(a, c.rank, c.task) then 1 - c.rank else c.rank, c.task),
         (_: Cell) => None,
         (c: Cell) => Sent(a, X, D, c.rank, c.task))
  }

  lemma ProbeValid(a: Arm, X: int -> Matrix, D: nat)
    ensures Probe(a, X, D).Valid()
  {}

  /** A dispatch reads what its operand's dispatch stored. */
  lemma OperandRight(a: Arm, X: int -> Matrix, D: nat, c: Cell, mem: Mem<Matrix>)
    requires Probe(a, X, D).Has(c) && Supplied(Probe(a, X, D), ProbeSpec(a, X, D), mem, c.rank, c.task)
    ensures c.task != FIRST && !Receiving(a, c.rank, c.task) ==>
      Output(mem, c.rank, Operand(a, c.rank, c.task)) == Value(X, D, c.rank, Operand(a, c.rank, c.task))
  {
    hide Value;
    if c.task != FIRST && !Receiving(a, c.rank, c.task) {
      assert Holds(ProbeSpec(a, X, D), mem, Cell(c.rank, Operand(a, c.rank, c.task), 0));
    }
  }

  lemma ComputeRight(a: Arm, X: int -> Matrix, D: nat, c: Cell, mem: Mem<Matrix>)
    requires Probe(a, X, D).Has(c) && Supplied(Probe(a, X, D), ProbeSpec(a, X, D), mem, c.rank, c.task)
    requires c.task == FIRST || c.task == MIDDLE || c.task == LAST
    ensures KernelsRight(Probe(a, X, D), ProbeSpec(a, X, D), c, mem)
  {
    hide Twice, Supplied, Output;
    OperandRight(a, X, D, c, mem);
  }

  lemma TransferRight(a: Arm, X: int -> Matrix, D: nat, c: Cell, mem: Mem<Matrix>)
    requires Probe(a, X, D).Has(c) && Supplied(Probe(a, X, D), ProbeSpec(a, X, D), mem, c.rank, c.task)
    requires c.task == FWD || c.task == SECOND
    ensures KernelsRight(Probe(a, X, D), ProbeSpec(a, X, D), c, mem)
  {
    hide Twice, Supplied, Output, Value;
    OperandRight(a, X, D, c, mem);
    assert Probe(a, X, D).Waits(c.rank, c.task) <==> Receiving(a, c.rank, c.task);
  }

  lemma ProbeSolves(a: Arm, X: int -> Matrix, D: nat)
    ensures Solves(Probe(a, X, D), ProbeSpec(a, X, D))
  {
    hide KernelsRight, Supplied;
    var p, sp := Probe(a, X, D), ProbeSpec(a, X, D);
    forall c: Cell, mem: Mem<Matrix> | p.Has(c) && Supplied(p, sp, mem, c.rank, c.task)
      ensures KernelsRight(p, sp, c, mem)
    {
      if c.task == FWD || c.task == SECOND { TransferRight(a, X, D, c, mem); } else { ComputeRight(a, X, D, c, mem); }
    }
  }

  /** Tensor c is n times the D x D matrix m. */
  ghost predicate Multiple(out: map<Cell, Matrix>, c: Cell, m: Matrix, D: nat, n: real) {
    && c in out && |out[c]| == D && (forall i | 0 <= i < D :: |out[c][i]| == D)
    && forall i, j | 0 <= i < D && 0 <= j < D :: out[c][i][j] == n * At(m, i, j)
  }

  /** Both transfers have arrived: the first compute of rank 0 on rank 1 (Rf[1]),
      and on the other ring (Rb) the first or second compute of its sender. */
  ghost predicate Delivered(a: Arm, X: int -> Matrix, D: nat, out: map<Cell, Matrix>) {
    && Multiple(out, Cell(1, FWD, 0), X(0), D, 2.0)
    && match a
       case Both => Multiple(out, Cell(0, SECOND, 0), X(1), D, 4.0)
       case BothDep => Multiple(out, Cell(0, SECOND, 0), X(1), D, 4.0)
       case SendFirst => Multiple(out, Cell(0, SECOND, 0), X(1), D, 2.0)
       case SendFirstDep => Multiple(out, Cell(0, SECOND, 0), X(1), D, 2.0)
       case FusedComm => Multiple(out, Cell(0, SECOND, 0), X(1), D, 2.0)
       case SameDirection => Multiple(out, Cell(1, SECOND, 0), X(0), D, 4.0)
  }

  lemma TwiceIs(m: Matrix, D: nat, c: Cell, out: map<Cell, Matrix>)
    requires Look(out, c) == Some(Twice(m, D))
    ensures Multiple(out, c, m, D, 2.0)
  {
    hide At;
    assert forall i, j | 0 <= i < D && 0 <= j < D :: out[c][i][j] == At(Twice(m, D), i, j) by {
      RawEntries(Twice(m, D), D);
    }
  }

  lemma RawEntries(m: Matrix, D: nat)
    requires IsMatrix(m, D, D)
    ensures forall i, j | 0 <= i < D && 0 <= j < D :: m[i][j] == At(m, i, j)
  {}

  lemma FourTimesIs(m: Matrix, D: nat, c: Cell, out: map<Cell, Matrix>)
    requires Look(out, c) == Some(Twice(Twice(m, D), D))
    ensures Multiple(out, c, m, D, 4.0)
  {
    hide At;
    RawEntries(Twice(Twice(m, D), D), D);
  }

  lemma ResultsDelivered(a: Arm, X: int -> Matrix, D: nat, aux0: map<Cell, Matrix>, s: State<Matrix>)
    requires Results(Probe(a, X, D), ProbeSpec(a, X, D), aux0, s)
    ensures Delivered(a, X, D, s.mem.out)
  {
    hide Twice, Multiple, Kernel;
    var p, f := Probe(a, X, D), Cell(1, FWD, 0);
    assert p.Has(f);
    TwiceIs(X(0), D, f, s.mem.out);
    var c := Cell(if a.SameDirection? then 1 else 0, SECOND, 0);
    assert p.Has(c);
    if a.Both? || a.BothDep? {
      FourTimesIs(X(1), D, c, s.mem.out);
    } else if a.SameDirection? {
      FourTimesIs(X(0), D, c, s.mem.out);
    } else {
      TwiceIs(X(1), D, c, s.mem.out);
    }
  }

  /** Dispatch u of rank r is complete. */
  ghost predicate Through(s: State<Matrix>, r: int, u: int)
    requires 0 <= r < |s.ranks| && s.ranks[r].pos <= |s.ranks[r].fifo|
  {
    u in s.ranks[r].fifo[..s.ranks[r].pos]
  }

  /** What a run of an arm can do next: the dispatches wait for exactly these
      producers, and a recv for the notify of its send. */
  lemma ArmSteps(a: Arm, X: int -> Matrix, D: nat, win: map<Cell, Matrix>, mem: Mem<Matrix>, acts: seq<Act>, r: int,
                 t: int)
    requires 0 <= r < 2 && After(Probe(a, X, D), Initial(Probe(a, X, D), win, mem), acts).Some?
    ensures var p := Probe(a, X, D); var s0 := Initial(p, win, mem); var s := After(p, s0, acts).value;
      && Shape(p, s)
      && (After(p, s0, acts + [RouteAct(r, t)]).Some? <==>
            && 0 <= t < (if a.FusedComm? then 4 else 5) && t !in s.ranks[r].fifo
            && (t == MIDDLE ==> Through(s, r, FIRST))
            && (t == FWD && (r == 0 || a.BothDep? || a.FusedComm?) ==> Through(s, r, FIRST))
            && (t == SECOND && r == 1 && (a.SendFirst? || a.SendFirstDep?) ==> Through(s, r, FIRST))
            && (t == SECOND && a.FusedComm? ==> Through(s, r, FIRST))
            && (t == SECOND && r == 1 && (a.Both? || a.BothDep?) ==> Through(s, r, MIDDLE))
            && (t == SECOND && r == 0 && a.SameDirection? ==> Through(s, r, MIDDLE))
            && (t == LAST ==> Through(s, r, MIDDLE))
            && (t == SECOND && r == 0 && (a.BothDep? || a.SendFirstDep?) ==> Through(s, r, FWD))
            && (t == FWD && r == 1 && a.SendFirstDep? ==> Through(s, r, SECOND)))
      && (After(p, s0, acts + [ExecAct(r)]).Some? <==>
            && s.ranks[r].pos < |s.ranks[r].fifo|
            && var u := s.ranks[r].fifo[s.ranks[r].pos];
               && (u == FWD && r == 1 ==> Prog(p, s, 0, FWD) >= 4)
               && (u == SECOND && r == (if a.SameDirection? then 1 else 0) ==> Prog(p, s, 1 - r, SECOND) >= 4))
  {
    hide Solves, After, Initial, Prog, Kernel, ProbeSpec;
    ProbeFacts(a, X, D);
    ExecutesExactly(Probe(a, X, D), ProbeSpec(a, X, D), win, mem, acts, r);
    RoutesExactly(Probe(a, X, D), win, mem, acts, r, t);
    BlockZero(a, X, D, win, mem, acts, r);
  }

  lemma BlockZero(a: Arm, X: int -> Matrix, D: nat, win: map<Cell, Matrix>, mem: Mem<Matrix>, acts: seq<Act>, r: int)
    requires 0 <= r < 2 && After(Probe(a, X, D), Initial(Probe(a, X, D), win, mem), acts).Some?
    ensures Shape(Probe(a, X, D), After(Probe(a, X, D), Initial(Probe(a, X, D), win, mem), acts).value)
    ensures var k := After(Probe(a, X, D), Initial(Probe(a, X, D), win, mem), acts).value.ranks[r];
      k.pos < |k.fifo| ==> k.blk == 0
  {
    hide After, Initial, Kernel;
    ProbeFacts(a, X, D);
    RanksAlways(Probe(a, X, D), win, mem, acts);
    assert RankOk(Probe(a, X, D), After(Probe(a, X, D), Initial(Probe(a, X, D), win, mem), acts).value, r);
  }

  // ---------------------------------------------------------------------
  // The arms that finish
  // ---------------------------------------------------------------------

  function ArmLevel(a: Arm): (int, int) -> nat {
    (r: int, t: int) => if a.SendFirstDep? then (if t == FWD then 1 else 0) else (if t == FWD then 0 else 1)
  }

  lemma ArmLevelled(a: Arm, X: int -> Matrix, D: nat)
    requires a.BothDep? || a.SendFirstDep? || a.SameDirection?
    ensures Levelled(Probe(a, X, D), ArmLevel(a))
  {}

  lemma RunBound(a: Arm, X: int -> Matrix, D: nat, win: map<Cell, Matrix>, mem: Mem<Matrix>, acts: seq<Act>)
    requires After(Probe(a, X, D), Initial(Probe(a, X, D), win, mem), acts).Some?
    ensures |acts| <= 2 * (Dispatches(a) * 6)
  {
    hide After, Kernel, Edges;
    ProbeValid(a, X, D);
    RunsAreFinite(Probe(a, X, D), win, mem, acts);
  }

  /** With an edge from a rank's send to its recv, or with one waiting rank
      only, every schedule finishes with both transfers delivered. */
  lemma ArmFinishes(a: Arm, X: int -> Matrix, D: nat, win: map<Cell, Matrix>, mem: Mem<Matrix>, acts: seq<Act>)
    requires a.BothDep? || a.SendFirstDep? || a.SameDirection?
    requires After(Probe(a, X, D), Initial(Probe(a, X, D), win, mem), acts).Some?
    ensures var p := Probe(a, X, D); var s := After(p, Initial(p, win, mem), acts).value;
      && |acts| <= 2 * (5 * 6)
      && (Complete(p, s) <==> forall b: Act :: After(p, Initial(p, win, mem), acts + [b]).None?)
      && (Complete(p, s) ==> Results(p, ProbeSpec(a, X, D), mem.aux, s) && Delivered(a, X, D, s.mem.out))
    ensures exists all: seq<Act> :: acts <= all && Finishes(Probe(a, X, D), Initial(Probe(a, X, D), win, mem), all)
  {
    hide Levelled, Solves, After, Initial, Complete, Results, Probe, ProbeSpec, Delivered;
    ProbeFacts(a, X, D);
    ArmLevelled(a, X, D);
    RunBound(a, X, D, win, mem, acts);
    EveryRunCompletes(Probe(a, X, D), ProbeSpec(a, X, D), ArmLevel(a), win, mem, acts);
    var s := After(Probe(a, X, D), Initial(Probe(a, X, D), win, mem), acts).value;
    if Results(Probe(a, X, D), ProbeSpec(a, X, D), mem.aux, s) { ResultsDelivered(a, X, D, mem.aux, s); }
  }

  // ---------------------------------------------------------------------
  // The arms that can deadlock
  // ---------------------------------------------------------------------

  /** Each rank's recv was routed ahead of its own send. */
  ghost predicate Crossed(s: State<Matrix>)
    requires |s.ranks| == 2
  {
    Ahead(s.ranks[0], SECOND, FWD) && Ahead(s.ranks[1], FWD, SECOND)
  }

  ghost predicate Blocked(a: Arm, X: int -> Matrix, D: nat, s: State<Matrix>)
    requires Shape(Probe(a, X, D), s)
  {
    Crossed(s) ==> Prog(Probe(a, X, D), s, 0, SECOND) == 0 && Prog(Probe(a, X, D), s, 1, FWD) == 0
  }

  predicate Split(a: Arm) { a.Both? || a.SendFirst? }

  /** With its sender not started, a rank that comes to its recv spins. */
  lemma CannotEnter(a: Arm, X: int -> Matrix, D: nat, s: State<Matrix>, r: int, t: int)
    requires Shape(Probe(a, X, D), s) && SignalsOk(Probe(a, X, D), s) && Receives(Probe(a, X, D), Cell(r, t, 0))
    requires r != 2
    requires Busy(Probe(a, X, D), s, r) && RankOk(Probe(a, X, D), s, r) && Current(Probe(a, X, D), s, r).task == t
    requires Prog(Probe(a, X, D), s, r, t) == 0 && Prog(Probe(a, X, D), s, 1 - r, t) == 0
    ensures Spins(Probe(a, X, D), s, r)
  {
    var p := Probe(a, X, D);
    RunningNotDone(p, s, r);
    assert From(p, Cell(r, t, 0)) == Cell(1 - r, t, 0);
  }

  lemma BlockedExec(a: Arm, X: int -> Matrix, D: nat, aux0: map<Cell, Matrix>, s: State<Matrix>, r: int)
    requires Split(a) && Invariant(Probe(a, X, D), ProbeSpec(a, X, D), aux0, s) && Blocked(a, X, D, s)
    requires Busy(Probe(a, X, D), s, r) && !Spins(Probe(a, X, D), s, r)
    ensures Shape(Probe(a, X, D), Exec(Probe(a, X, D), s, r)) && Blocked(a, X, D, Exec(Probe(a, X, D), s, r))
  {
    hide WindowsOk, InOrder, OutputsOk, AuxOk, RegistersOk, SignalsOk, Exec, Ahead, Edges, Kernel, Operand;
    var p := Probe(a, X, D);
    assert RankOk(p, s, 0) && RankOk(p, s, 1);
    ExecShape(p, s, r);
    ExecProg(p, s, r, 0, SECOND);
    ExecProg(p, s, r, 1, FWD);
    SameAhead(s.ranks[0], Exec(p, s, r).ranks[0], SECOND, FWD);
    SameAhead(s.ranks[1], Exec(p, s, r).ranks[1], FWD, SECOND);
    if Crossed(s) {
      NotStarted(p, s, 1, FWD, SECOND);
      NotStarted(p, s, 0, SECOND, FWD);
      if Current(p, s, r).task == if r == 0 then SECOND else FWD {
        CannotEnter(a, X, D, s, r, if r == 0 then SECOND else FWD);
      }
    }
  }

  /** A recv has started only if its send has. */
  lemma RecvAfterSend(a: Arm, X: int -> Matrix, D: nat, s: State<Matrix>, r: int, t: int)
    requires Shape(Probe(a, X, D), s) && InOrder(Probe(a, X, D), s) && Receives(Probe(a, X, D), Cell(r, t, 0))
    requires Prog(Probe(a, X, D), s, 1 - r, t) == 0
    ensures Prog(Probe(a, X, D), s, r, t) == 0
  {
    hide Prog;
    assert From(Probe(a, X, D), Cell(r, t, 0)) == Cell(1 - r, t, 0);
  }

  lemma BlockedRoute(a: Arm, X: int -> Matrix, D: nat, s: State<Matrix>, r: int, v: int)
    requires Split(a) && Shape(Probe(a, X, D), s) && RanksOk(Probe(a, X, D), s) && InOrder(Probe(a, X, D), s)
    requires Blocked(a, X, D, s)
    requires CanRoute(Probe(a, X, D), s, r, v)
    ensures Shape(Probe(a, X, D), Route(Probe(a, X, D), s, r, v)) && Blocked(a, X, D, Route(Probe(a, X, D), s, r, v))
  {
    hide Ahead, InOrder, Edges, Kernel, Operand, Prog;
    var p := Probe(a, X, D);
    RouteProg(p, s, r, v, 0, SECOND);
    RouteProg(p, s, r, v, 1, FWD);
    if Crossed(Route(p, s, r, v)) && !Crossed(s) {
      var u, t := if r == 0 then SECOND else FWD, if r == 0 then FWD else SECOND;
      NewlyAhead(s.ranks[r], v, u, t);
      UnroutedIdle(p, s, r, u);
      UnroutedIdle(p, s, r, t);
      RecvAfterSend(a, X, D, s, 1 - r, t);
    }
  }

  lemma {:induction false} BlockedAlways(a: Arm, X: int -> Matrix, D: nat, win: map<Cell, Matrix>, mem: Mem<Matrix>,
                                         acts: seq<Act>)
    requires Split(a) && After(Probe(a, X, D), Initial(Probe(a, X, D), win, mem), acts).Some?
    ensures Invariant(Probe(a, X, D), ProbeSpec(a, X, D), mem.aux,
      After(Probe(a, X, D), Initial(Probe(a, X, D), win, mem), acts).value)
    ensures Blocked(a, X, D, After(Probe(a, X, D), Initial(Probe(a, X, D), win, mem), acts).value)
    decreases |acts|
  {
    hide Invariant, Exec, Route, Solves, Probe, ProbeSpec, Blocked;
    var p := Probe(a, X, D);
    ProbeFacts(a, X, D);
    InvAlways(p, ProbeSpec(a, X, D), win, mem, acts);
    InvFacts(p, ProbeSpec(a, X, D), mem.aux, After(p, Initial(p, win, mem), acts).value);
    if acts == [] {
      NothingRouted(a, X, D, win, mem);
    } else {
      var prev := acts[..|acts| - 1];
      BlockedAlways(a, X, D, win, mem, prev);
      var m := After(p, Initial(p, win, mem), prev).value;
      InvFacts(p, ProbeSpec(a, X, D), mem.aux, m);
      match acts[|acts| - 1]
      case RouteAct(r, t) => BlockedRoute(a, X, D, m, r, t);
      case ExecAct(r) => BlockedExec(a, X, D, mem.aux, m, r);
    }
  }

  lemma ProbeFacts(a: Arm, X: int -> Matrix, D: nat)
    ensures Probe(a, X, D).Valid() && Solves(Probe(a, X, D), ProbeSpec(a, X, D)) && Probe(a, X, D).P == 2
    ensures Probe(a, X, D).N == Dispatches(a) && Probe(a, X, D).K == 1
  {
    ProbeValid(a, X, D);
    ProbeSolves(a, X, D);
  }

  lemma NothingRouted(a: Arm, X: int -> Matrix, D: nat, win: map<Cell, Matrix>, mem: Mem<Matrix>)
    ensures Shape(Probe(a, X, D), Initial(Probe(a, X, D), win, mem))
    ensures Blocked(a, X, D, Initial(Probe(a, X, D), win, mem))
  {}

  /** When the sends and recvs are not crossed, a stopped run has nobody spinning. */
  lemma UncrossedDescends(a: Arm, X: int -> Matrix, D: nat, aux0: map<Cell, Matrix>, s: State<Matrix>)
    requires Split(a) && Invariant(Probe(a, X, D), ProbeSpec(a, X, D), aux0, s) && Terminal(Probe(a, X, D), s)
    requires !Crossed(s)
    ensures !Busy(Probe(a, X, D), s, 0) && !Busy(Probe(a, X, D), s, 1)
  {
    hide Ahead, Terminal, WindowsOk, InOrder, OutputsOk, AuxOk, RegistersOk, Edges, Kernel, Operand;
    var p := Probe(a, X, D);
    ProbeValid(a, X, D);
    assert RankOk(p, s, 0) && RankOk(p, s, 1);
    if Busy(p, s, 0) { Partner(a, X, D, aux0, s, 0); }
    if Busy(p, s, 1) { Partner(a, X, D, aux0, s, 1); }
  }

  /** In a stopped run a spinning rank's partner spins too, behind a crossing. */
  lemma Partner(a: Arm, X: int -> Matrix, D: nat, aux0: map<Cell, Matrix>, s: State<Matrix>, r: int)
    requires Split(a) && Invariant(Probe(a, X, D), ProbeSpec(a, X, D), aux0, s) && Terminal(Probe(a, X, D), s)
    requires 0 <= r < 2 && Busy(Probe(a, X, D), s, r)
    ensures Crossed(s)
  {
    hide Ahead, Terminal, WindowsOk, InOrder, OutputsOk, AuxOk, RegistersOk, Edges, Kernel, Operand;
    var p, q := Probe(a, X, D), 1 - r;
    ProbeValid(a, X, D);
    assert RankOk(p, s, 0) && RankOk(p, s, 1);
    StuckSpins(p, s, r);
    var c := Current(p, s, r);
    assert c.task == if r == 0 then SECOND else FWD;
    assert Receives(p, c) && From(p, c).rank == q;
    SenderNotDone(p, s, c);
    if !Busy(p, s, q) { IdleIsDone(p, s, q, c.task); }
    StuckSpins(p, s, q);
    var d := Current(p, s, q);
    assert d.task == if q == 0 then SECOND else FWD;
    assert Receives(p, d) && From(p, d).rank == r;
    SenderNotDone(p, s, d);
    RunningAhead(s.ranks[r], c.task, d.task);
    RunningAhead(s.ranks[q], d.task, c.task);
  }

  lemma UncrossedCompletes(a: Arm, X: int -> Matrix, D: nat, aux0: map<Cell, Matrix>, s: State<Matrix>)
    requires Split(a) && Invariant(Probe(a, X, D), ProbeSpec(a, X, D), aux0, s) && Terminal(Probe(a, X, D), s)
    requires !Crossed(s)
    ensures Complete(Probe(a, X, D), s)
  {
    hide Ahead, Terminal, SignalsOk, WindowsOk, InOrder, OutputsOk, AuxOk, RegistersOk, Edges, Kernel, Operand, Crossed;
    var p := Probe(a, X, D);
    ProbeFacts(a, X, D);
    UncrossedDescends(a, X, D, aux0, s);
    forall r, t | 0 <= r < p.P && 0 <= t < p.N ensures Done(s.ranks[r], t) { IdleIsDone(p, s, r, t); }
  }

  lemma CrossedIncomplete(a: Arm, X: int -> Matrix, D: nat, s: State<Matrix>)
    requires Split(a) && Shape(Probe(a, X, D), s) && Blocked(a, X, D, s) && Crossed(s)
    ensures !Complete(Probe(a, X, D), s)
  {
    hide Ahead, Edges, Kernel, Operand;
    ProbeFacts(a, X, D);
    assert !Done(s.ranks[0], SECOND);
  }

  /** Without an edge, a run that cannot be extended is complete exactly when
      not both recvs were routed ahead of their ranks' sends. */
  lemma SplitOutcome(a: Arm, X: int -> Matrix, D: nat, win: map<Cell, Matrix>, mem: Mem<Matrix>, acts: seq<Act>)
    requires Split(a) && After(Probe(a, X, D), Initial(Probe(a, X, D), win, mem), acts).Some?
    ensures var p := Probe(a, X, D); var s := After(p, Initial(p, win, mem), acts).value;
      && Shape(p, s) && |acts| <= 2 * (5 * 6)
      && ((forall b: Act :: After(p, Initial(p, win, mem), acts + [b]).None?) ==> (Complete(p, s) <==> !Crossed(s)))
      && (Complete(p, s) ==> Results(p, ProbeSpec(a, X, D), mem.aux, s) && Delivered(a, X, D, s.mem.out))
  {
    hide Results, Probe, ProbeSpec, Solves, Invariant, Blocked, Crossed, Terminal, Complete, Delivered, After, Initial;
    var p := Probe(a, X, D);
    ProbeFacts(a, X, D);
    RunBound(a, X, D, win, mem, acts);
    BlockedAlways(a, X, D, win, mem, acts);
    var s := After(p, Initial(p, win, mem), acts).value;
    InvFacts(p, ProbeSpec(a, X, D), mem.aux, s);
    if Crossed(s) {
      CrossedIncomplete(a, X, D, s);
    } else if Terminal(p, s) {
      UncrossedCompletes(a, X, D, mem.aux, s);
    }
    MaximalIsTerminal(p, Initial(p, win, mem), acts);
    if Complete(p, s) {
      CompleteResults(p, ProbeSpec(a, X, D), mem.aux, s);
      ResultsDelivered(a, X, D, mem.aux, s);
    }
  }

  lemma {:induction false} CrossedForever(a: Arm, X: int -> Matrix, D: nat, win: map<Cell, Matrix>, mem: Mem<Matrix>,
                                          acts: seq<Act>, all: seq<Act>)
    requires Split(a) && acts <= all
    requires After(Probe(a, X, D), Initial(Probe(a, X, D), win, mem), acts).Some?
    requires After(Probe(a, X, D), Initial(Probe(a, X, D), win, mem), all).Some?
    requires Shape(Probe(a, X, D), After(Probe(a, X, D), Initial(Probe(a, X, D), win, mem), acts).value)
    requires Crossed(After(Probe(a, X, D), Initial(Probe(a, X, D), win, mem), acts).value)
    ensures Shape(Probe(a, X, D), After(Probe(a, X, D), Initial(Probe(a, X, D), win, mem), all).value)
    ensures Crossed(After(Probe(a, X, D), Initial(Probe(a, X, D), win, mem), all).value)
    decreases |all|
  {
    hide Ahead, Probe, Step;
    var p := Probe(a, X, D);
    ProbeFacts(a, X, D);
    if all == acts { return; }
    var prev := all[..|all| - 1];
    CrossedForever(a, X, D, win, mem, acts, prev);
    var m := After(p, Initial(p, win, mem), prev).value;
    var s := Step(p, m, all[|all| - 1]);
    FifoGrows(p, m, all[|all| - 1], 0);
    FifoGrows(p, m, all[|all| - 1], 1);
    AheadStays(m.ranks[0], s.ranks[0], SECOND, FWD);
    AheadStays(m.ranks[1], s.ranks[1], FWD, SECOND);
  }

  /** Routing what is ready at submission already crosses, and the deadlock is reached. */
  lemma DeadlockReachable(a: Arm, X: int -> Matrix, D: nat, win: map<Cell, Matrix>, mem: Mem<Matrix>)
    returns (all: seq<Act>)
    requires Split(a)
    ensures [RouteAct(0, FIRST), RouteAct(0, SECOND), RouteAct(1, FIRST), RouteAct(1, FWD)] <= all
    ensures After(Probe(a, X, D), Initial(Probe(a, X, D), win, mem), all).Some?
    ensures var s := After(Probe(a, X, D), Initial(Probe(a, X, D), win, mem), all).value;
      Shape(Probe(a, X, D), s) && Terminal(Probe(a, X, D), s) && !Complete(Probe(a, X, D), s)
    ensures forall b: Act :: After(Probe(a, X, D), Initial(Probe(a, X, D), win, mem), all + [b]).None?
  {
    hide Complete, Terminal, Solves, Ahead, Results, Delivered, After, Initial;
    ProbeFacts(a, X, D);
    var acts := Submission(a, X, D, win, mem);
    all := MaximalRun(Probe(a, X, D), win, mem, acts);
    CrossedForever(a, X, D, win, mem, acts, all);
    SplitOutcome(a, X, D, win, mem, all);
    MaximalIsTerminal(Probe(a, X, D), Initial(Probe(a, X, D), win, mem), all);
  }

  lemma Submission(a: Arm, X: int -> Matrix, D: nat, win: map<Cell, Matrix>, mem: Mem<Matrix>) returns (acts: seq<Act>)
    requires Split(a)
    ensures acts == [RouteAct(0, FIRST), RouteAct(0, SECOND), RouteAct(1, FIRST), RouteAct(1, FWD)]
    ensures After(Probe(a, X, D), Initial(Probe(a, X, D), win, mem), acts).Some?
    ensures var s := After(Probe(a, X, D), Initial(Probe(a, X, D), win, mem), acts).value;
      Shape(Probe(a, X, D), s) && Crossed(s)
  {
    hide Probe, After, Ahead;
    var p := Probe(a, X, D);
    ProbeFacts(a, X, D);
    FreeAtSubmission(a, X, D);
    acts := [];
    var s := Initial(p, win, mem);
    NoSteps(p, s);
    acts, s := Ready(p, win, mem, acts, s, 0, FIRST);
    acts, s := Ready(p, win, mem, acts, s, 0, SECOND);
    acts, s := Ready(p, win, mem, acts, s, 1, FIRST);
    acts, s := Ready(p, win, mem, acts, s, 1, FWD);
    SubmittedAhead(s.ranks[0], SECOND, FWD);
    SubmittedAhead(s.ranks[1], FWD, SECOND);
  }

  /** Without an edge, what a rank waits for is ready at submission. */
  lemma FreeAtSubmission(a: Arm, X: int -> Matrix, D: nat)
    requires Split(a)
    ensures forall r | 0 <= r < 2 :: Probe(a, X, D).needs(r, FIRST) == {}
    ensures Probe(a, X, D).needs(0, SECOND) == {} && Probe(a, X, D).needs(1, FWD) == {}
  {}

  lemma SubmittedAhead(k: Rank<Matrix>, u: int, t: int)
    requires k.fifo == [FIRST, u] && t != FIRST && t != u
    ensures Ahead(k, u, t)
  {
    assert k.fifo[1] == u && k.fifo[..1] == [FIRST];
  }
}
