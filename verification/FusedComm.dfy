/** The arm of the scheduling probe whose ranks both send and wait inside one
    dispatch (fusedcomm of b4_tworing_wait_probe.py): rank 0 sends, then waits;
    rank 1 waits, then sends. Such a dispatch is the rank's two transfers routed
    back to back, forward ring first, so that nothing runs between them. */
module FusedComm {
  import opened Tensor
  import opened Machine
  import opened MachineSafety
  import opened MachineLiveness
  import opened RoutingOrder
  import opened ProbeArms

  /** A step of a run: one of the machine's, or routing a rank's fused dispatch. */
  datatype Unit = One(act: Act) | Pair(rank: int)

  predicate Allowed(u: Unit) {
    u.One? && u.act.RouteAct? ==> u.act.task != FWD && u.act.task != SECOND
  }

  function Steps(u: Unit): seq<Act> {
    match u case One(a) => [a] case Pair(r) => [RouteAct(r, FWD), RouteAct(r, SECOND)]
  }

  function Acts(us: seq<Unit>): seq<Act> {
    if us == [] then [] else Acts(us[..|us| - 1]) + Steps(us[|us| - 1])
  }

  function Comm(X: int -> Matrix, D: nat): Program<Matrix> {
    Probe(Arm.FusedComm, X, D)
  }

  lemma CommFacts(X: int -> Matrix, D: nat)
    ensures Comm(X, D).P == 2 && Comm(X, D).N == 4 && Comm(X, D).K == 1 && Comm(X, D).Valid()
    ensures Solves(Comm(X, D), ProbeSpec(Arm.FusedComm, X, D))
  {
    ProbeFacts(Arm.FusedComm, X, D);
  }

  /** The two halves of a dispatch are neighbours in every FIFO. */
  ghost predicate Adjacent(fifo: seq<int>) {
    && (forall i | 0 <= i < |fifo| && fifo[i] == SECOND :: 0 < i && fifo[i - 1] == FWD)
    && (forall i | 0 <= i < |fifo| && fifo[i] == FWD :: i + 1 < |fifo| && fifo[i + 1] == SECOND)
  }

  ghost predicate AllAdjacent(s: State<Matrix>) {
    |s.ranks| == 2 && Adjacent(s.ranks[0].fifo) && Adjacent(s.ranks[1].fifo)
  }

  lemma AdjacentOther(fifo: seq<int>, t: int)
    requires Adjacent(fifo) && t != FWD && t != SECOND
    ensures Adjacent(fifo + [t])
  {}

  lemma AdjacentPair(fifo: seq<int>)
    requires Adjacent(fifo)
    ensures Adjacent(fifo + [FWD] + [SECOND])
  {
    var next := fifo + [FWD] + [SECOND];
    assert forall i | 0 <= i < |fifo| :: next[i] == fifo[i];
  }

  lemma AfterNext<V>(p: Program<V>, s0: State<V>, acts: seq<Act>, a: Act)
    requires After(p, s0, acts).Some?
    ensures var m := After(p, s0, acts).value;
      After(p, s0, acts + [a]) == if Shape(p, m) && Enabled(p, m, a) then Some(Step(p, m, a)) else None
  {
    hide Enabled, Step;
    assert (acts + [a])[..|acts + [a]| - 1] == acts;
  }

  lemma AfterBefore<V>(p: Program<V>, s0: State<V>, acts: seq<Act>, a: Act)
    requires After(p, s0, acts + [a]).Some?
    ensures After(p, s0, acts).Some?
  {
    hide Enabled, Step;
    assert (acts + [a])[..|acts + [a]| - 1] == acts;
  }

  lemma OneKeeps(X: int -> Matrix, D: nat, m: State<Matrix>, a: Act)
    requires Shape(Comm(X, D), m) && Enabled(Comm(X, D), m, a) && AllAdjacent(m) && Allowed(One(a))
    ensures AllAdjacent(Step(Comm(X, D), m, a))
  {
    hide Adjacent;
    match a
    case RouteAct(r, t) => AdjacentOther(m.ranks[r].fifo, t);
    case ExecAct(r) => ExecShape(Comm(X, D), m, r);
  }

  lemma {:induction false} AlwaysAdjacent(X: int -> Matrix, D: nat, win: map<Cell, Matrix>, mem: Mem<Matrix>,
                                          us: seq<Unit>)
    requires After(Comm(X, D), Initial(Comm(X, D), win, mem), Acts(us)).Some? && forall u | u in us :: Allowed(u)
    ensures AllAdjacent(After(Comm(X, D), Initial(Comm(X, D), win, mem), Acts(us)).value)
    decreases |us|
  {
    hide Comm, Step, Adjacent, Enabled;
    CommFacts(X, D);
    var p, s0 := Comm(X, D), Initial(Comm(X, D), win, mem);
    if us == [] {
      NoneAdjacent();
    } else {
      var prev := us[..|us| - 1];
      match us[|us| - 1]
      case One(a) =>
        AfterBefore(p, s0, Acts(prev), a);
        AlwaysAdjacent(X, D, win, mem, prev);
        AfterNext(p, s0, Acts(prev), a);
        OneKeeps(X, D, After(p, s0, Acts(prev)).value, a);
      case Pair(r) =>
        assert Acts(us) == Acts(prev) + [RouteAct(r, FWD)] + [RouteAct(r, SECOND)];
        AfterBefore(p, s0, Acts(prev) + [RouteAct(r, FWD)], RouteAct(r, SECOND));
        AfterBefore(p, s0, Acts(prev), RouteAct(r, FWD));
        AlwaysAdjacent(X, D, win, mem, prev);
        AfterNext(p, s0, Acts(prev), RouteAct(r, FWD));
        AfterNext(p, s0, Acts(prev) + [RouteAct(r, FWD)], RouteAct(r, SECOND));
        PairKeeps(X, D, After(p, s0, Acts(prev)).value, r);
    }
  }

  lemma NoneAdjacent()
    ensures Adjacent([])
  {}

  lemma PairKeeps(X: int -> Matrix, D: nat, m: State<Matrix>, r: int)
    requires Shape(Comm(X, D), m) && AllAdjacent(m) && Enabled(Comm(X, D), m, RouteAct(r, FWD))
    requires var n := Step(Comm(X, D), m, RouteAct(r, FWD));
      Shape(Comm(X, D), n) && Enabled(Comm(X, D), n, RouteAct(r, SECOND))
    ensures AllAdjacent(Step(Comm(X, D), Step(Comm(X, D), m, RouteAct(r, FWD)), RouteAct(r, SECOND)))
  {
    hide Adjacent;
    AdjacentPair(m.ranks[r].fifo);
  }

  /** Rank 1 waits on the forward ring before its reverse send; rank 0 comes to
      its reverse wait only behind its forward send. */
  lemma CommDescends(X: int -> Matrix, D: nat, s: State<Matrix>)
    requires Shape(Comm(X, D), s) && RanksOk(Comm(X, D), s) && AllAdjacent(s)
    ensures Descends(Comm(X, D), s, ArmLevel(Arm.FusedComm))
  {
    hide Kernel, Edges;
    var p := Comm(X, D);
    forall c | Receives(p, c) && Busy(p, s, From(p, c).rank) && Spins(p, s, From(p, c).rank)
      && !Done(s.ranks[From(p, c).rank], c.task)
      ensures ArmLevel(Arm.FusedComm)(From(p, c).rank, Current(p, s, From(p, c).rank).task)
        < ArmLevel(Arm.FusedComm)(c.rank, c.task)
    {
      var k := s.ranks[From(p, c).rank];
      if k.fifo[k.pos] == SECOND { assert k.fifo[..k.pos][k.pos - 1] == FWD; }
    }
  }

  /** Whatever can step can step as a run of whole dispatches. */
  lemma SomeUnit(X: int -> Matrix, D: nat, win: map<Cell, Matrix>, mem: Mem<Matrix>, us: seq<Unit>, b: Act)
    returns (u: Unit)
    requires After(Comm(X, D), Initial(Comm(X, D), win, mem), Acts(us)).Some?
    requires var s := After(Comm(X, D), Initial(Comm(X, D), win, mem), Acts(us)).value;
      Shape(Comm(X, D), s) && AllAdjacent(s) && Enabled(Comm(X, D), s, b)
    ensures Allowed(u) && After(Comm(X, D), Initial(Comm(X, D), win, mem), Acts(us + [u])).Some?
  {
    hide Comm, Step, Adjacent, Enabled, After, Acts;
    var p, s0 := Comm(X, D), Initial(Comm(X, D), win, mem);
    var s := After(p, s0, Acts(us)).value;
    if Allowed(One(b)) {
      u := One(b);
      ActsNext(us, u);
      AfterNext(p, s0, Acts(us), b);
    } else {
      u := Pair(b.rank);
      ActsNext(us, u);
      BothRoute(X, D, s, b);
      AfterTwo(p, s0, Acts(us), RouteAct(b.rank, FWD), RouteAct(b.rank, SECOND));
    }
  }

  lemma ActsNext(us: seq<Unit>, u: Unit)
    ensures u.One? ==> Acts(us + [u]) == Acts(us) + [u.act]
    ensures u.Pair? ==> Acts(us + [u]) == Acts(us) + [RouteAct(u.rank, FWD)] + [RouteAct(u.rank, SECOND)]
  {
    assert (us + [u])[..|us + [u]| - 1] == us;
  }

  lemma AfterTwo<V>(p: Program<V>, s0: State<V>, acts: seq<Act>, a: Act, b: Act)
    requires After(p, s0, acts).Some?
    requires var m := After(p, s0, acts).value;
      Shape(p, m) && Enabled(p, m, a) && Shape(p, Step(p, m, a)) && Enabled(p, Step(p, m, a), b)
    ensures After(p, s0, acts + [a] + [b]).Some?
  {
    hide Enabled, Step, After;
    AfterNext(p, s0, acts, a);
    AfterNext(p, s0, acts + [a], b);
  }

  lemma BothRoute(X: int -> Matrix, D: nat, s: State<Matrix>, b: Act)
    requires Shape(Comm(X, D), s) && AllAdjacent(s) && Enabled(Comm(X, D), s, b) && !Allowed(One(b))
    ensures Enabled(Comm(X, D), s, RouteAct(b.rank, FWD))
    ensures var n := Step(Comm(X, D), s, RouteAct(b.rank, FWD));
      Shape(Comm(X, D), n) && Enabled(Comm(X, D), n, RouteAct(b.rank, SECOND))
  {
    hide Kernel;
    var k := s.ranks[b.rank];
    BothOrNone(k.fifo);
    var p := Comm(X, D);
    assert p.needs(b.rank, FWD) == {FIRST} && p.needs(b.rank, SECOND) == {FIRST};
    assert Done(k, FIRST);
    assert CanRoute(p, s, b.rank, FWD);
    var n := Route(p, s, b.rank, FWD);
    assert (k.fifo + [FWD])[..k.pos] == k.fifo[..k.pos];
    assert Done(n.ranks[b.rank], FIRST);
    assert CanRoute(p, n, b.rank, SECOND);
  }

  lemma BothOrNone(fifo: seq<int>)
    requires Adjacent(fifo)
    ensures FWD in fifo <==> SECOND in fifo
  {
    forall i | 0 <= i < |fifo| && fifo[i] == FWD ensures SECOND in fifo { assert fifo[i + 1] == SECOND; }
    forall i | 0 <= i < |fifo| && fifo[i] == SECOND ensures FWD in fifo { assert fifo[i - 1] == FWD; }
  }

  /** One dispatch per rank for both transfers: every schedule is finite, goes
      on until it is complete, and ends with both transfers delivered, although
      both ranks wait. */
  lemma FusedFinishes(X: int -> Matrix, D: nat, win: map<Cell, Matrix>, mem: Mem<Matrix>, us: seq<Unit>)
    requires After(Comm(X, D), Initial(Comm(X, D), win, mem), Acts(us)).Some? && forall u | u in us :: Allowed(u)
    ensures var p := Comm(X, D); var s := After(p, Initial(p, win, mem), Acts(us)).value;
      && Shape(p, s) && |Acts(us)| <= 2 * (4 * 6)
      && ((exists u: Unit :: Allowed(u) && After(p, Initial(p, win, mem), Acts(us + [u])).Some?) || Complete(p, s))
      && (Complete(p, s) ==>
            Results(p, ProbeSpec(Arm.FusedComm, X, D), mem.aux, s) && Delivered(Arm.FusedComm, X, D, s.mem.out))
  {
    hide Comm, ProbeSpec, After, Initial, Acts, Adjacent, Enabled, Complete, Results, Delivered, Descends, Solves,
      Allowed;
    var p, sp := Comm(X, D), ProbeSpec(Arm.FusedComm, X, D);
    CommFacts(X, D);
    RunsAreFinite(p, win, mem, Acts(us));
    AlwaysAdjacent(X, D, win, mem, us);
    InvAlways(p, sp, win, mem, Acts(us));
    var s := After(p, Initial(p, win, mem), Acts(us)).value;
    InvFacts(p, sp, mem.aux, s);
    if Complete(p, s) {
      CompleteResults(p, sp, mem.aux, s);
      CommDelivered(X, D, mem.aux, s);
    } else if Terminal(p, s) {
      CommDescends(X, D, s);
      TerminalIsComplete(p, sp, mem.aux, s, ArmLevel(Arm.FusedComm));
    } else {
      var b: Act :| Enabled(p, s, b);
      var u := SomeUnit(X, D, win, mem, us, b);
    }
  }

  lemma CommDelivered(X: int -> Matrix, D: nat, aux0: map<Cell, Matrix>, s: State<Matrix>)
    requires Results(Comm(X, D), ProbeSpec(Arm.FusedComm, X, D), aux0, s)
    ensures Delivered(Arm.FusedComm, X, D, s.mem.out)
  {
    hide Results, Delivered;
    ResultsDelivered(Arm.FusedComm, X, D, aux0, s);
  }

  /** Every run of whole dispatches goes on to a complete one. */
  lemma {:induction false} FusedCompletes(X: int -> Matrix, D: nat, win: map<Cell, Matrix>, mem: Mem<Matrix>,
                                          us: seq<Unit>)
    returns (all: seq<Unit>)
    requires After(Comm(X, D), Initial(Comm(X, D), win, mem), Acts(us)).Some? && forall u | u in us :: Allowed(u)
    ensures us <= all && (forall u | u in all :: Allowed(u))
    ensures Finishes(Comm(X, D), Initial(Comm(X, D), win, mem), Acts(all))
    decreases 48 - |Acts(us)|
  {
    hide Comm, ProbeSpec, After, Initial, Acts, Complete, Results, Delivered, Allowed;
    var p, s0 := Comm(X, D), Initial(Comm(X, D), win, mem);
    FusedFinishes(X, D, win, mem, us);
    if Complete(p, After(p, s0, Acts(us)).value) {
      all := us;
    } else {
      var u: Unit :| Allowed(u) && After(p, s0, Acts(us + [u])).Some?;
      ActsNext(us, u);
      assert (us + [u])[..|us|] == us;
      FusedFinishes(X, D, win, mem, us + [u]);
      all := FusedCompletes(X, D, win, mem, us + [u]);
    }
  }
}
