/** Every run of the dispatch machine is finite, and under a level condition
    on the waits it only stops when every dispatch is complete. */
module MachineLiveness {
  import opened Machine
  import opened MachineSafety

  // ---------------------------------------------------------------------
  // Termination
  // ---------------------------------------------------------------------

  /** Steps left of dispatch t on rank r: its routing, and five per block. */
  function Left<V>(p: Program<V>, s: State<V>, r: int, t: int): int
    requires Shape(p, s) && 0 <= r < p.P
  {
    (if t in s.ranks[r].fifo then 0 else 1) + 5 * p.Blocks(t) - Prog(p, s, r, t)
  }

  function RankLeft<V>(p: Program<V>, s: State<V>, r: int, n: nat): int
    requires Shape(p, s) && 0 <= r < p.P
  {
    if n == 0 then 0 else RankLeft(p, s, r, n - 1) + Left(p, s, r, n - 1)
  }

  function AllLeft<V>(p: Program<V>, s: State<V>, m: nat): int
    requires Shape(p, s) && m <= p.P
  {
    if m == 0 then 0 else AllLeft(p, s, m - 1) + RankLeft(p, s, m - 1, p.N)
  }

  lemma LeftNonNegative<V>(p: Program<V>, s: State<V>, r: int, t: int)
    requires Shape(p, s) && 0 <= r < p.P && RankOk(p, s, r)
    ensures 0 <= Left(p, s, r, t)
  {}

  /** Each step takes at least one from exactly one dispatch. */
  lemma StepLeft<V>(p: Program<V>, s: State<V>, a: Act, q: int, u: int)
    requires p.Valid() && Shape(p, s) && RanksOk(p, s) && Enabled(p, s, a) && 0 <= q < p.P
    ensures Shape(p, Step(p, s, a))
    ensures Left(p, Step(p, s, a), q, u) <= Left(p, s, q, u)
    ensures q == Mover(a) && u == Moves(p, s, a) ==> Left(p, Step(p, s, a), q, u) < Left(p, s, q, u)
  {
    hide Prog, Exec, RankOk;
    match a
    case RouteAct(r, t) =>
      RouteProg(p, s, r, t, q, u);
    case ExecAct(r) =>
      assert RankOk(p, s, r);
      ExecShape(p, s, r);
      ExecProg(p, s, r, q, u);
  }

  function Mover(a: Act): int {
    match a case RouteAct(r, _) => r case ExecAct(r) => r
  }

  function Moves<V>(p: Program<V>, s: State<V>, a: Act): int
    requires Shape(p, s) && Enabled(p, s, a)
  {
    match a case RouteAct(_, t) => t case ExecAct(r) => Current(p, s, r).task
  }

  lemma {:induction false} RankLeftDrops<V>(p: Program<V>, s: State<V>, a: Act, q: int, n: nat)
    requires p.Valid() && Shape(p, s) && RanksOk(p, s) && Enabled(p, s, a) && 0 <= q < p.P
    ensures Shape(p, Step(p, s, a))
    ensures RankLeft(p, Step(p, s, a), q, n) <= RankLeft(p, s, q, n)
    ensures q == Mover(a) && 0 <= Moves(p, s, a) < n ==> RankLeft(p, Step(p, s, a), q, n) < RankLeft(p, s, q, n)
  {
    hide Step, Enabled, Left, RanksOk, Moves, Mover;
    if n == 0 {
      StepLeft(p, s, a, q, 0);
    } else {
      StepLeft(p, s, a, q, n - 1);
      RankLeftDrops(p, s, a, q, n - 1);
    }
  }

  lemma {:induction false} AllLeftDrops<V>(p: Program<V>, s: State<V>, a: Act, m: nat)
    requires p.Valid() && Shape(p, s) && RanksOk(p, s) && Enabled(p, s, a) && m <= p.P && 0 <= Moves(p, s, a) < p.N
    ensures Shape(p, Step(p, s, a))
    ensures AllLeft(p, Step(p, s, a), m) <= AllLeft(p, s, m)
    ensures 0 <= Mover(a) < m ==> AllLeft(p, Step(p, s, a), m) < AllLeft(p, s, m)
  {
    hide Step, Enabled, RankLeft, RanksOk, Moves, Mover;
    if m == 0 {
      StepShape(p, s, a);
    } else {
      RankLeftDrops(p, s, a, m - 1, p.N);
      AllLeftDrops(p, s, a, m - 1);
    }
  }

  lemma StepShape<V>(p: Program<V>, s: State<V>, a: Act)
    requires Shape(p, s) && Enabled(p, s, a)
    ensures Shape(p, Step(p, s, a))
  {}

  lemma MovesInRange<V>(p: Program<V>, s: State<V>, a: Act)
    requires Shape(p, s) && RanksOk(p, s) && Enabled(p, s, a)
    ensures 0 <= Moves(p, s, a) < p.N && 0 <= Mover(a) < p.P
  {
    if a.ExecAct? { assert RankOk(p, s, a.rank); }
  }

  lemma {:induction false} AllLeftNonNegative<V>(p: Program<V>, s: State<V>, m: nat)
    requires Shape(p, s) && RanksOk(p, s) && m <= p.P
    ensures 0 <= AllLeft(p, s, m)
  {
    if m > 0 {
      AllLeftNonNegative(p, s, m - 1);
      assert RankOk(p, s, m - 1);
      RankLeftNonNegative(p, s, m - 1, p.N);
    }
  }

  lemma {:induction false} RankLeftNonNegative<V>(p: Program<V>, s: State<V>, r: int, n: nat)
    requires Shape(p, s) && 0 <= r < p.P && RankOk(p, s, r)
    ensures 0 <= RankLeft(p, s, r, n)
  {
    if n > 0 {
      RankLeftNonNegative(p, s, r, n - 1);
      LeftNonNegative(p, s, r, n - 1);
    }
  }

  /** The FIFO discipline needs nothing of what the kernels compute. */
  lemma {:induction false} RanksAlways<V>(p: Program<V>, win: map<Cell, V>, mem: Mem<V>, acts: seq<Act>)
    requires p.Valid() && After(p, Initial(p, win, mem), acts).Some?
    ensures Shape(p, After(p, Initial(p, win, mem), acts).value)
    ensures RanksOk(p, After(p, Initial(p, win, mem), acts).value)
    decreases |acts|
  {
    hide RankOk, Exec, Route;
    if acts == [] {
      RanksInitial(p, win, mem);
    } else {
      RanksAlways(p, win, mem, acts[..|acts| - 1]);
      var m := After(p, Initial(p, win, mem), acts[..|acts| - 1]).value;
      RanksStep(p, m, acts[|acts| - 1]);
    }
  }

  lemma RanksInitial<V>(p: Program<V>, win: map<Cell, V>, mem: Mem<V>)
    ensures Shape(p, Initial(p, win, mem)) && RanksOk(p, Initial(p, win, mem))
  {}

  lemma RanksStep<V>(p: Program<V>, s: State<V>, a: Act)
    requires p.Valid() && Shape(p, s) && RanksOk(p, s) && Enabled(p, s, a)
    ensures Shape(p, Step(p, s, a)) && RanksOk(p, Step(p, s, a))
  {
    hide RankOk, Exec, Route;
    StepShape(p, s, a);
    forall q | 0 <= q < p.P ensures RankOk(p, Step(p, s, a), q) {
      match a
      case RouteAct(r, t) => RouteRankOk(p, s, r, t, q);
      case ExecAct(r) =>
        assert RankOk(p, s, r);
        ExecRankOk(p, s, r, q);
    }
  }

  lemma {:induction false} StepsPaid<V>(p: Program<V>, win: map<Cell, V>, mem: Mem<V>, acts: seq<Act>)
    requires p.Valid() && After(p, Initial(p, win, mem), acts).Some?
    ensures Shape(p, Initial(p, win, mem)) && Shape(p, After(p, Initial(p, win, mem), acts).value)
    ensures |acts| + AllLeft(p, After(p, Initial(p, win, mem), acts).value, p.P)
         <= AllLeft(p, Initial(p, win, mem), p.P)
    decreases |acts|
  {
    hide Step, Enabled, AllLeft, Moves, Mover, RanksOk;
    RanksAlways(p, win, mem, acts);
    RanksInitial(p, win, mem);
    if acts != [] {
      var a := acts[|acts| - 1];
      StepsPaid(p, win, mem, acts[..|acts| - 1]);
      RanksAlways(p, win, mem, acts[..|acts| - 1]);
      var m := After(p, Initial(p, win, mem), acts[..|acts| - 1]).value;
      MovesInRange(p, m, a);
      AllLeftDrops(p, m, a, p.P);
    }
  }

  lemma {:induction false} InitialRankLeft<V>(p: Program<V>, s: State<V>, r: int, n: nat)
    requires p.Valid() && Shape(p, s) && 0 <= r < p.P && s.ranks[r].fifo == []
    ensures RankLeft(p, s, r, n) <= n * (5 * p.K + 1)
  {
    if n > 0 {
      InitialRankLeft(p, s, r, n - 1);
      assert Left(p, s, r, n - 1) <= 5 * p.K + 1;
      assert (n - 1) * (5 * p.K + 1) + (5 * p.K + 1) == n * (5 * p.K + 1);
    }
  }

  lemma {:induction false} InitialAllLeft<V>(p: Program<V>, s: State<V>, m: nat)
    requires p.Valid() && Shape(p, s) && m <= p.P && forall r | 0 <= r < p.P :: s.ranks[r].fifo == []
    ensures AllLeft(p, s, m) <= m * (p.N * (5 * p.K + 1))
  {
    if m > 0 {
      InitialAllLeft(p, s, m - 1);
      InitialRankLeft(p, s, m - 1, p.N);
      assert (m - 1) * (p.N * (5 * p.K + 1)) + p.N * (5 * p.K + 1) == m * (p.N * (5 * p.K + 1));
    }
  }

  /** No interleaving is longer than one routing and 5 K steps per dispatch. */
  lemma RunsAreFinite<V>(p: Program<V>, win: map<Cell, V>, mem: Mem<V>, acts: seq<Act>)
    requires p.Valid() && After(p, Initial(p, win, mem), acts).Some?
    ensures |acts| <= p.P * (p.N * (5 * p.K + 1))
  {
    hide AllLeft, RanksOk;
    StepsPaid(p, win, mem, acts);
    RanksAlways(p, win, mem, acts);
    AllLeftNonNegative(p, After(p, Initial(p, win, mem), acts).value, p.P);
    InitialAllLeft(p, Initial(p, win, mem), p.P);
  }

  // ---------------------------------------------------------------------
  // Deadlock freedom
  // ---------------------------------------------------------------------

  /** In state s: whenever rank r waits in ring t for a rank q that is not done
      with t and itself waits in t', level drops from (r, t) to (q, t'). */
  ghost predicate Descends<V>(p: Program<V>, s: State<V>, lvl: (int, int) -> nat)
    requires Shape(p, s)
  {
    forall c | Receives(p, c) && Busy(p, s, From(p, c).rank) && Spins(p, s, From(p, c).rank)
      && !Done(s.ranks[From(p, c).rank], c.task) ::
      lvl(From(p, c).rank, Current(p, s, From(p, c).rank).task) < lvl(c.rank, c.task)
  }

  /** The same from the dispatch graph alone: t' may run before t at q only if
      t is not a producer of t'. */
  ghost predicate Levelled<V>(p: Program<V>, lvl: (int, int) -> nat) {
    forall c, u | Receives(p, c) && 0 <= u < p.N && p.Waits(From(p, c).rank, u)
      && c.task !in p.needs(From(p, c).rank, u) ::
      lvl(From(p, c).rank, u) < lvl(c.rank, c.task)
  }

  lemma LevelledDescends<V>(p: Program<V>, s: State<V>, lvl: (int, int) -> nat)
    requires Shape(p, s) && RanksOk(p, s) && Levelled(p, lvl)
    ensures Descends(p, s, lvl)
  {
    forall c | Receives(p, c) && Busy(p, s, From(p, c).rank) && Spins(p, s, From(p, c).rank)
      && !Done(s.ranks[From(p, c).rank], c.task)
      ensures lvl(From(p, c).rank, Current(p, s, From(p, c).rank).task) < lvl(c.rank, c.task)
    {
      assert RankOk(p, s, From(p, c).rank);
    }
  }

  /** A rank without a running dispatch has nothing left to do. */
  lemma {:induction false} IdleIsDone<V>(p: Program<V>, s: State<V>, r: int, t: int)
    requires p.Valid() && Shape(p, s) && RanksOk(p, s) && Terminal(p, s) && 0 <= r < p.P && !Busy(p, s, r)
    requires 0 <= t < p.N
    ensures Done(s.ranks[r], t)
    decreases p.order(r, t)
  {
    var k := s.ranks[r];
    assert k.fifo[..k.pos] == k.fifo;
    forall u | u in p.needs(r, t) ensures Done(k, u) { IdleIsDone(p, s, r, u); }
    assert !Enabled(p, s, RouteAct(r, t));
  }

  /** In a state without steps nobody spins. */
  lemma {:induction false} NobodySpins<V>(p: Program<V>, sp: Spec<V>, aux0: map<Cell, V>, s: State<V>,
                                          lvl: (int, int) -> nat, r: int)
    requires p.Valid() && Invariant(p, sp, aux0, s) && Terminal(p, s) && Descends(p, s, lvl) && 0 <= r < p.P
    ensures !Busy(p, s, r)
    decreases if Busy(p, s, r) then lvl(r, Current(p, s, r).task) else 0
  {
    hide WindowsOk, InOrder, OutputsOk, AuxOk, RegistersOk, Terminal;
    if Busy(p, s, r) {
      StuckSpins(p, s, r);
      var c := Current(p, s, r);
      assert RankOk(p, s, r);
      assert Receives(p, c);
      var q := From(p, c).rank;
      SenderSends(p, c);
      SenderNotDone(p, s, c);
      if Busy(p, s, q) {
        StuckSpins(p, s, q);
        NobodySpins(p, sp, aux0, s, lvl, q);
      } else {
        IdleIsDone(p, s, q, c.task);
      }
    }
  }

  lemma StuckSpins<V>(p: Program<V>, s: State<V>, r: int)
    requires Shape(p, s) && Terminal(p, s) && Busy(p, s, r)
    ensures Spins(p, s, r)
  {
    assert !Enabled(p, s, ExecAct(r));
  }

  lemma SenderNotDone<V>(p: Program<V>, s: State<V>, c: Cell)
    requires Shape(p, s) && SignalsOk(p, s) && Receives(p, c) && Signal(s.sig, c) < 1
    ensures !Done(s.ranks[From(p, c).rank], c.task)
  {
    SenderSends(p, c);
  }

  lemma TerminalIsComplete<V>(p: Program<V>, sp: Spec<V>, aux0: map<Cell, V>, s: State<V>, lvl: (int, int) -> nat)
    requires p.Valid() && Invariant(p, sp, aux0, s) && Terminal(p, s) && Descends(p, s, lvl)
    ensures Complete(p, s)
  {
    hide Descends, Terminal;
    forall r, t | 0 <= r < p.P && 0 <= t < p.N ensures Done(s.ranks[r], t) {
      NobodySpins(p, sp, aux0, s, lvl, r);
      IdleIsDone(p, s, r, t);
    }
  }

  /** What a finished run leaves in memory. */
  ghost predicate Results<V>(p: Program<V>, sp: Spec<V>, aux0: map<Cell, V>, s: State<V>) {
    forall c | p.Has(c) ::
      Look(s.mem.out, c) == Some(sp.out(c))
        && Look(s.mem.aux, c) == if sp.aux(c).Some? then sp.aux(c) else Look(aux0, c)
  }

  lemma CompleteResults<V>(p: Program<V>, sp: Spec<V>, aux0: map<Cell, V>, s: State<V>)
    requires Invariant(p, sp, aux0, s) && Complete(p, s)
    ensures Results(p, sp, aux0, s)
  {
    hide SignalsOk, WindowsOk, InOrder, RegistersOk;
    forall c | p.Has(c) ensures Prog(p, s, c.rank, c.task) == 5 * p.Blocks(c.task) {}
  }

  /** Deadlock freedom and correctness: an interleaving that cannot be
      extended has completed every dispatch with the specified results. */
  lemma EveryRunFinishes<V(!new)>(p: Program<V>, sp: Spec<V>, lvl: (int, int) -> nat, win: map<Cell, V>, mem: Mem<V>,
                           acts: seq<Act>)
    requires p.Valid() && Solves(p, sp) && Levelled(p, lvl) && After(p, Initial(p, win, mem), acts).Some?
    ensures Invariant(p, sp, mem.aux, After(p, Initial(p, win, mem), acts).value)
    ensures var s := After(p, Initial(p, win, mem), acts).value;
      (exists a: Act :: Enabled(p, s, a)) || (Complete(p, s) && Results(p, sp, mem.aux, s))
  {
    hide Levelled, Solves, Enabled;
    InvAlways(p, sp, win, mem, acts);
    var s := After(p, Initial(p, win, mem), acts).value;
    if Terminal(p, s) {
      LevelledDescends(p, s, lvl);
      TerminalIsComplete(p, sp, mem.aux, s, lvl);
      CompleteResults(p, sp, mem.aux, s);
    }
  }

  /** Every run extends to one that cannot be extended further. */
  lemma {:induction false} MaximalRun<V(!new)>(p: Program<V>, win: map<Cell, V>, mem: Mem<V>, acts: seq<Act>)
    returns (all: seq<Act>)
    requires p.Valid() && After(p, Initial(p, win, mem), acts).Some?
    ensures acts <= all && After(p, Initial(p, win, mem), all).Some?
    ensures Shape(p, After(p, Initial(p, win, mem), all).value)
    ensures Terminal(p, After(p, Initial(p, win, mem), all).value)
    decreases p.P * (p.N * (5 * p.K + 1)) - |acts|
  {
    hide Enabled, Step, RanksOk;
    var s := After(p, Initial(p, win, mem), acts).value;
    RanksAlways(p, win, mem, acts);
    if Terminal(p, s) {
      all := acts;
    } else {
      var a: Act :| Enabled(p, s, a);
      assert (acts + [a])[..|acts|] == acts;
      RunsAreFinite(p, win, mem, acts + [a]);
      all := MaximalRun(p, win, mem, acts + [a]);
    }
  }

  // ---------------------------------------------------------------------
  // Which steps a run can take next
  // ---------------------------------------------------------------------

  /** The rank that rank r receives from in ring t. */
  function Upstream<V>(p: Program<V>, r: int, t: int): int {
    match p.kind(t) case Compute => -1 case Up => r - 1 case Down => r + 1
  }

  lemma AppendStep<V>(p: Program<V>, s0: State<V>, acts: seq<Act>, a: Act)
    requires After(p, s0, acts).Some?
    ensures var s := After(p, s0, acts).value;
      After(p, s0, acts + [a]) == if Shape(p, s) && Enabled(p, s, a) then Some(Step(p, s, a)) else None
  {
    hide Enabled, Step;
    assert (acts + [a])[..|acts + [a]| - 1] == acts;
  }

  /** Any rank with a routed, unfinished dispatch may take its next step at any
      moment, except that a block whose sender has not got past its notify of
      that block (four of its five steps) is not entered. No other rank matters. */
  lemma ExecutesExactly<V(!new)>(p: Program<V>, sp: Spec<V>, win: map<Cell, V>, mem: Mem<V>, acts: seq<Act>, r: int)
    requires p.Valid() && Solves(p, sp) && After(p, Initial(p, win, mem), acts).Some?
    ensures Shape(p, After(p, Initial(p, win, mem), acts).value)
    ensures var s := After(p, Initial(p, win, mem), acts).value;
      After(p, Initial(p, win, mem), acts + [ExecAct(r)]).Some? <==>
        0 <= r < p.P && s.ranks[r].pos < |s.ranks[r].fifo| && MayEnter(p, s, r)
  {
    hide SignalsOk, WindowsOk, InOrder, OutputsOk, AuxOk, RegistersOk, RanksOk, Solves, After, Initial;
    InvAlways(p, sp, win, mem, acts);
    var s := After(p, Initial(p, win, mem), acts).value;
    AppendStep(p, Initial(p, win, mem), acts, ExecAct(r));
    if 0 <= r < p.P && s.ranks[r].pos < |s.ranks[r].fifo| { EntersExactly(p, sp, mem.aux, s, r); }
  }

  /** The current block has no sender, or its sender has notified it. */
  ghost predicate MayEnter<V>(p: Program<V>, s: State<V>, r: int)
    requires Shape(p, s) && 0 <= r < p.P && s.ranks[r].pos < |s.ranks[r].fifo|
  {
    var t := s.ranks[r].fifo[s.ranks[r].pos];
    var q := Upstream(p, r, t);
    0 <= q < p.P ==> Prog(p, s, q, t) >= 5 * s.ranks[r].blk + 4
  }

  lemma EntersExactly<V>(p: Program<V>, sp: Spec<V>, aux0: map<Cell, V>, s: State<V>, r: int)
    requires p.Valid() && Invariant(p, sp, aux0, s) && Busy(p, s, r)
    ensures !Spins(p, s, r) <==> MayEnter(p, s, r)
  {
    hide WindowsOk, OutputsOk, AuxOk, RegistersOk;
    var c := Current(p, s, r);
    assert RankOk(p, s, r);
    RunningNotDone(p, s, r);
    CurrentHas(p, s, r);
    if p.Waits(r, c.task) {
      assert Receives(p, c);
      assert From(p, c) == Cell(Upstream(p, r, c.task), c.task, c.block);
    }
  }

  /** A dispatch can be routed exactly when it is not yet routed and all its
      producers on that rank are complete. */
  lemma RoutesExactly<V(!new)>(p: Program<V>, win: map<Cell, V>, mem: Mem<V>, acts: seq<Act>, r: int, t: int)
    requires p.Valid() && After(p, Initial(p, win, mem), acts).Some?
    ensures Shape(p, After(p, Initial(p, win, mem), acts).value)
    ensures var s := After(p, Initial(p, win, mem), acts).value;
      After(p, Initial(p, win, mem), acts + [RouteAct(r, t)]).Some? <==>
        && 0 <= r < p.P && 0 <= t < p.N && t !in s.ranks[r].fifo
        && forall u | u in p.needs(r, t) :: u in s.ranks[r].fifo[..s.ranks[r].pos]
  {
    hide After, Initial, RanksOk;
    RanksAlways(p, win, mem, acts);
    AppendStep(p, Initial(p, win, mem), acts, RouteAct(r, t));
  }

  /** A run cannot be extended exactly when its last state has no steps. */
  lemma MaximalIsTerminal<V>(p: Program<V>, s0: State<V>, acts: seq<Act>)
    requires After(p, s0, acts).Some? && Shape(p, After(p, s0, acts).value)
    ensures Terminal(p, After(p, s0, acts).value) <==> forall a: Act :: After(p, s0, acts + [a]).None?
  {
    hide Enabled, Step, After;
    forall a: Act ensures After(p, s0, acts + [a]).None? <==> !Enabled(p, After(p, s0, acts).value, a) {
      AppendStep(p, s0, acts, a);
    }
  }

  /** With levels, every run goes on to a complete one with the specified
      results, and only complete runs cannot go on. */
  lemma EveryRunCompletes<V(!new)>(p: Program<V>, sp: Spec<V>, lvl: (int, int) -> nat, win: map<Cell, V>, mem: Mem<V>,
                                   acts: seq<Act>)
    requires p.Valid() && Solves(p, sp) && Levelled(p, lvl) && After(p, Initial(p, win, mem), acts).Some?
    ensures var s0 := Initial(p, win, mem); var s := After(p, s0, acts).value;
      && Shape(p, s)
      && ((forall a: Act :: After(p, s0, acts + [a]).None?) <==> Complete(p, s))
      && (Complete(p, s) ==> Results(p, sp, mem.aux, s))
    ensures exists all: seq<Act> ::
      acts <= all && Finishes(p, Initial(p, win, mem), all)
        && Results(p, sp, mem.aux, After(p, Initial(p, win, mem), all).value)
  {
    hide Levelled, Solves, Terminal, Complete, Results, After, Initial, SignalsOk, WindowsOk, InOrder, OutputsOk, AuxOk,
      RegistersOk, RanksOk;
    var s0 := Initial(p, win, mem);
    var s := After(p, s0, acts).value;
    EveryRunFinishes(p, sp, lvl, win, mem, acts);
    MaximalIsTerminal(p, s0, acts);
    if Complete(p, s) {
      CompleteIsTerminal(p, s);
      CompleteResults(p, sp, mem.aux, s);
    }
    NoStepsLeft(p, s);
    var all := MaximalRun(p, win, mem, acts);
    EveryRunFinishes(p, sp, lvl, win, mem, all);
    NoStepsLeft(p, After(p, s0, all).value);
  }

  lemma NoStepsLeft<V>(p: Program<V>, s: State<V>)
    requires Shape(p, s)
    ensures Terminal(p, s) <==> !exists a: Act :: Enabled(p, s, a)
  {
    hide Enabled;
  }

  lemma CompleteIsTerminal<V>(p: Program<V>, s: State<V>)
    requires Shape(p, s) && RanksOk(p, s) && Complete(p, s)
    ensures Terminal(p, s)
  {
    forall a: Act ensures !Enabled(p, s, a) {
      match a
      case RouteAct(r, t) => if 0 <= r < p.P && 0 <= t < p.N { assert Done(s.ranks[r], t); }
      case ExecAct(r) =>
        if Busy(p, s, r) {
          assert RankOk(p, s, r);
          RunningNotDone(p, s, r);
        }
    }
  }
}
