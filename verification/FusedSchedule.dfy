/** Which schedules of the fused program finish: all of them with the ordering
    token; without it, exactly those in which rank 0's forward send is routed
    before its reverse receive. */
module FusedSchedule {
  import opened Machine
  import opened MachineSafety
  import opened MachineLiveness
  import opened RoutingOrder
  import opened FusedProgram

  /** The forward ring below the reverse ring, each along its direction. */
  function Level(P: nat): (int, int) -> nat {
    (r: int, t: int) => if t == FORWARD then (if r < 0 then 0 else r) else if r < P then P + (P - r) else 0
  }

  lemma TokenLevelled(x: Params)
    requires x.Valid() && x.token
    ensures Levelled(Fused(x), Level(x.P))
  {}

  lemma FusedValid(x: Params)
    requires x.Valid()
    ensures Fused(x).Valid()
  {}

  /** The grad_o and grad_h outputs of every rank are those of the five phases
      in order. */
  ghost predicate FusedResults(x: Params, s: State<Tensors>) {
    forall r | 0 <= r < x.P ::
      Stored(s.mem.out, Cell(r, GRAD_O, 0)) == GradO(x, r) && Stored(s.mem.out, Cell(r, GRAD_H, 0)) == GradH(x, r)
  }

  /** With the token: finite, deadlock-free on every schedule and every
      interleaving, and every finished run has the sequential results. */
  lemma TokenedFinishes(x: Params, win: map<Cell, Tensors>, mem: Mem<Tensors>, acts: seq<Act>)
    requires x.Valid() && x.token && After(Fused(x), Initial(Fused(x), win, mem), acts).Some?
    ensures var p := Fused(x); var s := After(p, Initial(p, win, mem), acts).value;
      && |acts| <= x.P * (5 * (5 * x.K + 1))
      && Invariant(p, FusedSpec(x), mem.aux, s)
      && (Complete(p, s) <==> forall a: Act :: After(p, Initial(p, win, mem), acts + [a]).None?)
      && (Complete(p, s) ==> FusedResults(x, s))
    ensures exists all: seq<Act> :: acts <= all && Finishes(Fused(x), Initial(Fused(x), win, mem), all)
  {
    hide Invariant, Levelled, Solves, After, Initial, Complete, Results, FusedResults, Fused, FusedSpec;
    FusedFacts(x);
    TokenLevelled(x);
    RunsAreFinite(Fused(x), win, mem, acts);
    InvAlways(Fused(x), FusedSpec(x), win, mem, acts);
    EveryRunCompletes(Fused(x), FusedSpec(x), Level(x.P), win, mem, acts);
    var s := After(Fused(x), Initial(Fused(x), win, mem), acts).value;
    if Results(Fused(x), FusedSpec(x), mem.aux, s) { ResultsAre(x, mem.aux, s); }
  }

  lemma ResultsAre(x: Params, aux0: map<Cell, Tensors>, s: State<Tensors>)
    requires x.Valid() && Results(Fused(x), FusedSpec(x), aux0, s)
    ensures FusedResults(x, s)
  {
    hide GradO, GradH;
    forall r | 0 <= r < x.P
      ensures Stored(s.mem.out, Cell(r, GRAD_O, 0)) == GradO(x, r)
      ensures Stored(s.mem.out, Cell(r, GRAD_H, 0)) == GradH(x, r)
    {
      assert Fused(x).Has(Cell(r, GRAD_O, 0)) && Fused(x).Has(Cell(r, GRAD_H, 0));
    }
  }

  /** Dispatch u of rank r is complete. */
  ghost predicate Through(s: State<Tensors>, r: int, u: int)
    requires 0 <= r < |s.ranks| && s.ranks[r].pos <= |s.ranks[r].fifo|
  {
    u in s.ranks[r].fifo[..s.ranks[r].pos]
  }

  /** What a run can do next. Routing waits for the tensors of the dispatch
      (recompute's for the forward ring, grad_o and grad_h; the received boundary
      for grad_o and the reverse ring, except on rank 0; grad_o's for the reverse
      ring above rank 0 and for grad_h; the reverse ring's for grad_h), and with
      the token for the forward ring before the reverse one. Execution waits for
      the neighbour's notify of the current block. Nothing else is waited for. */
  lemma FusedSteps(x: Params, win: map<Cell, Tensors>, mem: Mem<Tensors>, acts: seq<Act>, r: int, t: int)
    requires x.Valid() && 0 <= r < x.P && After(Fused(x), Initial(Fused(x), win, mem), acts).Some?
    ensures var p := Fused(x); var s0 := Initial(p, win, mem); var s := After(p, s0, acts).value;
      && Shape(p, s)
      && (After(p, s0, acts + [RouteAct(r, t)]).Some? <==>
            && 0 <= t < 5 && t !in s.ranks[r].fifo
            && (t == FORWARD || t == GRAD_O || t == GRAD_H ==> Through(s, r, RECOMPUTE))
            && ((t == GRAD_O && 0 < r) || (t == REVERSE && (0 < r < x.P - 1 || x.token)) ==> Through(s, r, FORWARD))
            && ((t == REVERSE && 0 < r) || t == GRAD_H ==> Through(s, r, GRAD_O))
            && (t == GRAD_H ==> Through(s, r, REVERSE)))
      && (After(p, s0, acts + [ExecAct(r)]).Some? <==>
            && s.ranks[r].pos < |s.ranks[r].fifo|
            && var u, k := s.ranks[r].fifo[s.ranks[r].pos], s.ranks[r].blk;
               && (u == FORWARD && 0 < r ==> Prog(p, s, r - 1, FORWARD) >= 5 * k + 4)
               && (u == REVERSE && r < x.P - 1 ==> Prog(p, s, r + 1, REVERSE) >= 5 * k + 4))
  {
    hide Solves, After, Initial, Prog, StoreBlock, AuxBlock, SendBlock, FusedSpec;
    FusedFacts(x);
    ExecutesExactly(Fused(x), FusedSpec(x), win, mem, acts, r);
    RoutesExactly(Fused(x), win, mem, acts, r, t);
  }

  // ---------------------------------------------------------------------
  // Without the token
  // ---------------------------------------------------------------------

  /** The reverse receive was routed with the forward send not ahead of it. */
  ghost predicate JumpsAhead(k: Rank<Tensors>) {
    Ahead(k, REVERSE, FORWARD)
  }

  /** A reverse receive that jumped ahead never starts. */
  ghost predicate Jammed(x: Params, s: State<Tensors>)
    requires 0 < x.h && 0 < x.P && Shape(Fused(x), s)
  {
    JumpsAhead(s.ranks[0]) ==> Prog(Fused(x), s, 0, REVERSE) == 0
  }

  /** Rank 1 has sent on the reverse ring only if rank 0 has sent on the forward ring. */
  lemma ReverseNeedsForward(x: Params, aux0: map<Cell, Tensors>, s: State<Tensors>)
    requires x.Valid() && Invariant(Fused(x), FusedSpec(x), aux0, s)
    requires Prog(Fused(x), s, 1, REVERSE) > 0
    ensures Prog(Fused(x), s, 0, FORWARD) > 3
  {
    hide SignalsOk, WindowsOk, OutputsOk, AuxOk, RegistersOk;
    var p, k := Fused(x), s.ranks[1];
    assert RankOk(p, s, 1);
    assert GRAD_O in p.needs(1, REVERSE);
    StartedNeeds(x, s, 1, REVERSE, GRAD_O);
    DoneNeeds(x, s, 1, GRAD_O, FORWARD);
    assert Loaded(p, s, Cell(1, FORWARD, 0));
    assert Receives(p, Cell(1, FORWARD, 0));
  }

  lemma StartedNeeds(x: Params, s: State<Tensors>, r: int, t: int, u: int)
    requires x.Valid() && Shape(Fused(x), s) && 0 <= r < x.P && RankOk(Fused(x), s, r) && Prog(Fused(x), s, r, t) > 0
    requires u in Fused(x).needs(r, t)
    ensures Done(s.ranks[r], u)
  {
    var k := s.ranks[r];
    if Done(k, t) { DoneNeeds(x, s, r, t, u); } else { assert k.fifo[k.pos] == t; }
  }

  lemma DoneNeeds(x: Params, s: State<Tensors>, r: int, t: int, u: int)
    requires x.Valid() && Shape(Fused(x), s) && 0 <= r < x.P && RankOk(Fused(x), s, r) && Done(s.ranks[r], t)
    requires u in Fused(x).needs(r, t)
    ensures Done(s.ranks[r], u)
  {
    var k := s.ranks[r];
    var i :| 0 <= i < k.pos && k.fifo[i] == t;
  }

  lemma JammedRoute(x: Params, s: State<Tensors>, r: int, t: int)
    requires x.Valid() && Shape(Fused(x), s) && RanksOk(Fused(x), s) && CanRoute(Fused(x), s, r, t) && Jammed(x, s)
    ensures Shape(Fused(x), Route(Fused(x), s, r, t)) && Jammed(x, Route(Fused(x), s, r, t))
  {
    hide Ahead, Prog;
    var p := Fused(x);
    RouteProg(p, s, r, t, 0, REVERSE);
    if r == 0 && JumpsAhead(Route(p, s, r, t).ranks[0]) {
      NewlyAhead(s.ranks[0], t, REVERSE, FORWARD);
      if t == REVERSE { UnroutedIdle(p, s, 0, REVERSE); }
    }
  }

  /** Rank 0 enters its reverse receive only after its forward send. */
  lemma ReverseAfterForward(x: Params, aux0: map<Cell, Tensors>, s: State<Tensors>)
    requires x.Valid() && Invariant(Fused(x), FusedSpec(x), aux0, s) && Busy(Fused(x), s, 0) && !Spins(Fused(x), s, 0)
    requires Current(Fused(x), s, 0).task == REVERSE && Prog(Fused(x), s, 0, REVERSE) == 0
    ensures FORWARD in s.ranks[0].fifo[..s.ranks[0].pos]
  {
    hide WindowsOk, InOrder, OutputsOk, AuxOk, RegistersOk;
    var p, c := Fused(x), Cell(0, REVERSE, 0);
    assert RankOk(p, s, 0);
    RunningNotDone(p, s, 0);
    assert Receives(p, c) && From(p, c) == Cell(1, REVERSE, 0);
    ReverseNeedsForward(x, aux0, s);
  }

  lemma JammedExec(x: Params, aux0: map<Cell, Tensors>, s: State<Tensors>, r: int)
    requires x.Valid() && Invariant(Fused(x), FusedSpec(x), aux0, s) && Busy(Fused(x), s, r) && !Spins(Fused(x), s, r)
    requires Jammed(x, s)
    ensures Shape(Fused(x), Exec(Fused(x), s, r)) && Jammed(x, Exec(Fused(x), s, r))
  {
    hide SignalsOk, WindowsOk, InOrder, OutputsOk, AuxOk, RegistersOk, Exec, Ahead;
    var p := Fused(x);
    assert RankOk(p, s, r);
    ExecShape(p, s, r);
    ExecProg(p, s, r, 0, REVERSE);
    SameAhead(s.ranks[0], Exec(p, s, r).ranks[0], REVERSE, FORWARD);
    if r == 0 && JumpsAhead(s.ranks[0]) && Current(p, s, 0).task == REVERSE {
      AheadRunning(s.ranks[0], REVERSE, FORWARD);
      ReverseAfterForward(x, aux0, s);
    }
  }

  lemma {:induction false} JammedAlways(x: Params, win: map<Cell, Tensors>, mem: Mem<Tensors>, acts: seq<Act>)
    requires x.Valid() && After(Fused(x), Initial(Fused(x), win, mem), acts).Some?
    ensures Invariant(Fused(x), FusedSpec(x), mem.aux, After(Fused(x), Initial(Fused(x), win, mem), acts).value)
    ensures Jammed(x, After(Fused(x), Initial(Fused(x), win, mem), acts).value)
    decreases |acts|
  {
    hide Invariant, Exec, Route, Solves, Fused, FusedSpec, JumpsAhead, Prog;
    var p := Fused(x);
    FusedFacts(x);
    InvAlways(p, FusedSpec(x), win, mem, acts);
    InvFacts(p, FusedSpec(x), mem.aux, After(p, Initial(p, win, mem), acts).value);
    if acts == [] {
      NothingAhead(x, win, mem);
    } else {
      var prev := acts[..|acts| - 1];
      JammedAlways(x, win, mem, prev);
      var m := After(p, Initial(p, win, mem), prev).value;
      InvFacts(p, FusedSpec(x), mem.aux, m);
      match acts[|acts| - 1]
      case RouteAct(r, t) => JammedRoute(x, m, r, t);
      case ExecAct(r) => JammedExec(x, mem.aux, m, r);
    }
  }

  lemma FusedFacts(x: Params)
    requires x.Valid()
    ensures Fused(x).Valid() && Solves(Fused(x), FusedSpec(x)) && Fused(x).P == x.P && Fused(x).N == 5
    ensures Fused(x).K == x.K
  {
    FusedSolves(x);
  }

  lemma NothingAhead(x: Params, win: map<Cell, Tensors>, mem: Mem<Tensors>)
    requires x.Valid()
    ensures Shape(Fused(x), Initial(Fused(x), win, mem)) && Jammed(x, Initial(Fused(x), win, mem))
  {}

  /** A waiting sender is below its receiver, unless rank 0 jumped ahead. */
  lemma Unjammed(x: Params, s: State<Tensors>)
    requires x.Valid() && Shape(Fused(x), s) && RanksOk(Fused(x), s) && !JumpsAhead(s.ranks[0])
    ensures Descends(Fused(x), s, Level(x.P))
  {
    var p := Fused(x);
    forall c | Receives(p, c) && Busy(p, s, From(p, c).rank) && Spins(p, s, From(p, c).rank)
      && !Done(s.ranks[From(p, c).rank], c.task)
      ensures Level(x.P)(From(p, c).rank, Current(p, s, From(p, c).rank).task) < Level(x.P)(c.rank, c.task)
    {
      var q := From(p, c).rank;
      var k := s.ranks[q];
      assert RankOk(p, s, q);
      assert k.fifo[k.pos] == FORWARD || k.fifo[k.pos] == REVERSE;
    }
  }

  lemma RunBound(x: Params, win: map<Cell, Tensors>, mem: Mem<Tensors>, acts: seq<Act>)
    requires x.Valid() && After(Fused(x), Initial(Fused(x), win, mem), acts).Some?
    ensures |acts| <= x.P * (5 * (5 * x.K + 1))
  {
    hide After, Initial;
    FusedValid(x);
    RunsAreFinite(Fused(x), win, mem, acts);
  }

  lemma JumpedIncomplete(x: Params, s: State<Tensors>)
    requires x.Valid() && Shape(Fused(x), s) && Jammed(x, s) && JumpsAhead(s.ranks[0])
    ensures !Complete(Fused(x), s)
  {
    hide JumpsAhead;
    assert !Done(s.ranks[0], REVERSE);
  }

  lemma OutcomeAtEnd(x: Params, win: map<Cell, Tensors>, mem: Mem<Tensors>, acts: seq<Act>)
    requires x.Valid() && After(Fused(x), Initial(Fused(x), win, mem), acts).Some?
    ensures var p := Fused(x); var s := After(p, Initial(p, win, mem), acts).value;
      && Shape(p, s) && |acts| <= x.P * (5 * (5 * x.K + 1))
      && (Terminal(p, s) ==> (Complete(p, s) <==> !JumpsAhead(s.ranks[0])))
      && (Complete(p, s) ==> FusedResults(x, s))
      && (JumpsAhead(s.ranks[0]) ==> Prog(p, s, 0, REVERSE) == 0)
  {
    hide Fused, FusedSpec, FusedResults, Solves, Invariant, Jammed, JumpsAhead, Terminal, Complete, Results, Descends;
    var p := Fused(x);
    FusedFacts(x);
    RunBound(x, win, mem, acts);
    JammedAlways(x, win, mem, acts);
    var s := After(p, Initial(p, win, mem), acts).value;
    InvFacts(p, FusedSpec(x), mem.aux, s);
    if JumpsAhead(s.ranks[0]) {
      JumpedIncomplete(x, s);
    } else if Terminal(p, s) {
      Unjammed(x, s);
      TerminalIsComplete(p, FusedSpec(x), mem.aux, s, Level(x.P));
    }
    JammedMeans(x, s);
    if Complete(p, s) {
      CompleteResults(p, FusedSpec(x), mem.aux, s);
      ResultsAre(x, mem.aux, s);
    }
  }

  /** Without (or with) the token, an interleaving that cannot be extended is
      complete exactly when rank 0's reverse receive did not jump ahead. */
  lemma Outcome(x: Params, win: map<Cell, Tensors>, mem: Mem<Tensors>, acts: seq<Act>)
    requires x.Valid() && After(Fused(x), Initial(Fused(x), win, mem), acts).Some?
    ensures var p := Fused(x); var s := After(p, Initial(p, win, mem), acts).value;
      && Shape(p, s) && |acts| <= x.P * (5 * (5 * x.K + 1))
      && ((forall a: Act :: After(p, Initial(p, win, mem), acts + [a]).None?)
            ==> (Complete(p, s) <==> !JumpsAhead(s.ranks[0])))
      && (Complete(p, s) ==> FusedResults(x, s))
      && (JumpsAhead(s.ranks[0]) ==> Prog(p, s, 0, REVERSE) == 0)
  {
    hide Fused, FusedResults, JumpsAhead, Terminal, Complete, After, Initial, Prog;
    OutcomeAtEnd(x, win, mem, acts);
    MaximalIsTerminal(Fused(x), Initial(Fused(x), win, mem), acts);
  }

  lemma JammedMeans(x: Params, s: State<Tensors>)
    requires x.Valid() && Shape(Fused(x), s) && Jammed(x, s)
    ensures JumpsAhead(s.ranks[0]) ==> Prog(Fused(x), s, 0, REVERSE) == 0
  {}

  // ---------------------------------------------------------------------
  // The stall is reachable for every number of ranks
  // ---------------------------------------------------------------------

  lemma {:induction false} AheadForever(x: Params, win: map<Cell, Tensors>, mem: Mem<Tensors>, acts: seq<Act>,
                                        all: seq<Act>)
    requires x.Valid() && acts <= all
    requires After(Fused(x), Initial(Fused(x), win, mem), acts).Some?
    requires After(Fused(x), Initial(Fused(x), win, mem), all).Some?
    requires Shape(Fused(x), After(Fused(x), Initial(Fused(x), win, mem), acts).value)
    requires JumpsAhead(After(Fused(x), Initial(Fused(x), win, mem), acts).value.ranks[0])
    ensures Shape(Fused(x), After(Fused(x), Initial(Fused(x), win, mem), all).value)
    ensures JumpsAhead(After(Fused(x), Initial(Fused(x), win, mem), all).value.ranks[0])
    decreases |all|
  {
    hide Ahead, Fused;
    var p := Fused(x);
    FusedFacts(x);
    if all == acts { return; }
    var prev := all[..|all| - 1];
    AheadForever(x, win, mem, acts, prev);
    var m := After(p, Initial(p, win, mem), prev).value;
    FifoGrows(p, m, all[|all| - 1], 0);
    AheadStays(m.ranks[0], Step(p, m, all[|all| - 1]).ranks[0], REVERSE, FORWARD);
  }

  /** Nothing enters the forward ring once rank 0 has jumped ahead. */
  lemma {:induction false} ForwardStarved(x: Params, aux0: map<Cell, Tensors>, s: State<Tensors>, r: int)
    requires x.Valid() && Invariant(Fused(x), FusedSpec(x), aux0, s) && JumpsAhead(s.ranks[0]) && Jammed(x, s)
    requires 0 <= r < x.P
    ensures Prog(Fused(x), s, r, FORWARD) == 0
    decreases r
  {
    hide SignalsOk, WindowsOk, OutputsOk, AuxOk, RegistersOk, Ahead;
    var p := Fused(x);
    if r == 0 {
      assert RankOk(p, s, 0);
      NotStarted(p, s, 0, REVERSE, FORWARD);
    } else {
      ForwardStarved(x, aux0, s, r - 1);
      assert Receives(p, Cell(r, FORWARD, 0)) && From(p, Cell(r, FORWARD, 0)) == Cell(r - 1, FORWARD, 0);
    }
  }

  /** The stalled state: rank 0 spins in its reverse receive, every other rank
      in its forward receive, all on the first block. */
  ghost predicate Stalled(x: Params, s: State<Tensors>)
    requires 0 < x.h && Shape(Fused(x), s)
  {
    forall r | 0 <= r < x.P :: Busy(Fused(x), s, r) && Spins(Fused(x), s, r)
      && Current(Fused(x), s, r) == Cell(r, if r == 0 then REVERSE else FORWARD, 0)
  }

  lemma JammedStalls(x: Params, aux0: map<Cell, Tensors>, s: State<Tensors>)
    requires x.Valid() && Invariant(Fused(x), FusedSpec(x), aux0, s) && Terminal(Fused(x), s) && JumpsAhead(s.ranks[0])
    requires Jammed(x, s)
    ensures Stalled(x, s) && !Complete(Fused(x), s)
  {
    hide SignalsOk, WindowsOk, OutputsOk, AuxOk, RegistersOk, InOrder, JumpsAhead, Terminal;
    var p := Fused(x);
    FusedValid(x);
    forall r | 0 <= r < x.P
      ensures Busy(p, s, r) && Spins(p, s, r) && Current(p, s, r) == Cell(r, if r == 0 then REVERSE else FORWARD, 0)
      ensures !Done(s.ranks[r], FORWARD)
    {
      assert RankOk(p, s, r);
      ForwardStarved(x, aux0, s, r);
      if !Busy(p, s, r) { IdleIsDone(p, s, r, FORWARD); }
      StuckSpins(p, s, r);
      RunningNotDone(p, s, r);
      if 0 < r && Current(p, s, r).task == REVERSE { ReverseBehind(x, s, r); }
    }
  }

  /** On a middle rank the reverse dispatch runs only after the forward one. */
  lemma ReverseBehind(x: Params, s: State<Tensors>, r: int)
    requires x.Valid() && Shape(Fused(x), s) && 0 < r < x.P - 1 && RankOk(Fused(x), s, r) && Busy(Fused(x), s, r)
    requires Current(Fused(x), s, r).task == REVERSE
    ensures Done(s.ranks[r], FORWARD)
  {
    assert FORWARD in Fused(x).needs(r, REVERSE);
  }

  /** Without the token: once rank 0's two fan-in-free dispatches are routed at
      submission, recompute and then the reverse receive, no continuation
      completes, and one of them ends in the stall. */
  lemma StallReachable(x: Params, win: map<Cell, Tensors>, mem: Mem<Tensors>) returns (all: seq<Act>)
    requires x.Valid() && !x.token
    ensures [RouteAct(0, RECOMPUTE), RouteAct(0, REVERSE)] <= all
    ensures After(Fused(x), Initial(Fused(x), win, mem), all).Some?
    ensures var s := After(Fused(x), Initial(Fused(x), win, mem), all).value;
      Shape(Fused(x), s) && Terminal(Fused(x), s) && Stalled(x, s) && !Complete(Fused(x), s)
    ensures forall a: Act :: After(Fused(x), Initial(Fused(x), win, mem), all + [a]).None?
  {
    hide Stalled, Complete, Terminal, Invariant, Solves, JumpsAhead;
    var p := Fused(x);
    FusedFacts(x);
    var acts := Submission(x, win, mem);
    all := MaximalRun(p, win, mem, acts);
    AheadForever(x, win, mem, acts, all);
    JammedAlways(x, win, mem, all);
    JammedStalls(x, mem.aux, After(p, Initial(p, win, mem), all).value);
    MaximalIsTerminal(p, Initial(p, win, mem), all);
  }

  lemma Submission(x: Params, win: map<Cell, Tensors>, mem: Mem<Tensors>) returns (acts: seq<Act>)
    requires x.Valid() && !x.token
    ensures acts == [RouteAct(0, RECOMPUTE), RouteAct(0, REVERSE)]
    ensures After(Fused(x), Initial(Fused(x), win, mem), acts).Some?
    ensures var s := After(Fused(x), Initial(Fused(x), win, mem), acts).value;
      Shape(Fused(x), s) && JumpsAhead(s.ranks[0])
  {
    var s := Initial(Fused(x), win, mem);
    acts := [];
    acts, s := Ready(Fused(x), win, mem, acts, s, 0, RECOMPUTE);
    acts, s := Ready(Fused(x), win, mem, acts, s, 0, REVERSE);
    assert s.ranks[0].fifo == [RECOMPUTE, REVERSE];
    assert s.ranks[0].fifo[1] == REVERSE && FORWARD !in s.ranks[0].fifo[..1];
  }

  lemma CompleteReverse(x: Params, s: State<Tensors>)
    requires x.Valid() && Shape(Fused(x), s)
    ensures Complete(Fused(x), s) ==> Prog(Fused(x), s, 0, REVERSE) > 0
  {
    assert Complete(Fused(x), s) ==> Done(s.ranks[0], REVERSE);
  }

  /** No continuation of a run in which rank 0 jumped ahead completes. */
  lemma NoneCompletes(x: Params, win: map<Cell, Tensors>, mem: Mem<Tensors>, acts: seq<Act>, all: seq<Act>)
    requires x.Valid() && acts <= all
    requires After(Fused(x), Initial(Fused(x), win, mem), acts).Some?
    requires After(Fused(x), Initial(Fused(x), win, mem), all).Some?
    requires Shape(Fused(x), After(Fused(x), Initial(Fused(x), win, mem), acts).value)
    requires JumpsAhead(After(Fused(x), Initial(Fused(x), win, mem), acts).value.ranks[0])
    ensures Shape(Fused(x), After(Fused(x), Initial(Fused(x), win, mem), all).value)
    ensures !Complete(Fused(x), After(Fused(x), Initial(Fused(x), win, mem), all).value)
  {
    hide JumpsAhead, FusedResults, Terminal;
    AheadForever(x, win, mem, acts, all);
    Outcome(x, win, mem, all);
    CompleteReverse(x, After(Fused(x), Initial(Fused(x), win, mem), all).value);
  }
}
