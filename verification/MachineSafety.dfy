/** What holds after every step of the dispatch machine, over every interleaving. */
module MachineSafety {
  import opened Machine

  /** The values a program is meant to compute: outputs, second outputs, messages. */
  datatype Spec<!V> = Spec(out: Cell -> V, aux: Cell -> Option<V>, msg: Cell -> V)

  /** What rank c.rank receives for block c. */
  function Expected<V>(p: Program<V>, sp: Spec<V>, c: Cell): Option<V> {
    if p.Waits(c.rank, c.task) then Some(sp.msg(Cell(p.Pred(c.rank, c.task), c.task, c.block))) else None
  }

  /** mem holds the right outputs of every producer of dispatch t on rank r. */
  ghost predicate Supplied<V>(p: Program<V>, sp: Spec<V>, mem: Mem<V>, r: int, t: int) {
    forall u, k | u in p.needs(r, t) && 0 <= k < p.Blocks(u) :: Holds(sp, mem, Cell(r, u, k))
  }

  ghost predicate Holds<V>(sp: Spec<V>, mem: Mem<V>, c: Cell) {
    Look(mem.out, c) == Some(sp.out(c)) && (sp.aux(c).Some? ==> Look(mem.aux, c) == sp.aux(c))
  }

  /** The kernels compute the specified values from right producers and the
      right received block. */
  ghost predicate Solves<V(!new)>(p: Program<V>, sp: Spec<V>) {
    forall c: Cell, mem: Mem<V> | p.Has(c) && Supplied(p, sp, mem, c.rank, c.task) :: KernelsRight(p, sp, c, mem)
  }

  ghost predicate KernelsRight<V>(p: Program<V>, sp: Spec<V>, c: Cell, mem: Mem<V>) {
    && p.store(c, mem, Expected(p, sp, c)) == sp.out(c)
    && p.aux(c, mem, Expected(p, sp, c)) == sp.aux(c)
    && (p.Sends(c.rank, c.task) ==> p.send(c, mem, Expected(p, sp, c)) == sp.msg(c))
  }

  // ---------------------------------------------------------------------
  // Invariant
  // ---------------------------------------------------------------------

  ghost predicate RanksOk<V>(p: Program<V>, s: State<V>)
    requires Shape(p, s)
  {
    forall r | 0 <= r < p.P :: RankOk(p, s, r)
  }

  /** Rank c.rank has notified block c; it has stored it remotely. */
  ghost predicate Notified<V>(p: Program<V>, s: State<V>, c: Cell)
    requires Shape(p, s) && 0 <= c.rank < p.P
  {
    Prog(p, s, c.rank, c.task) > 5 * c.block + 3
  }

  ghost predicate StoredRemote<V>(p: Program<V>, s: State<V>, c: Cell)
    requires Shape(p, s) && 0 <= c.rank < p.P
  {
    Prog(p, s, c.rank, c.task) > 5 * c.block + 2
  }

  ghost predicate StoredLocal<V>(p: Program<V>, s: State<V>, c: Cell)
    requires Shape(p, s) && 0 <= c.rank < p.P
  {
    Prog(p, s, c.rank, c.task) > 5 * c.block + 1
  }

  ghost predicate Loaded<V>(p: Program<V>, s: State<V>, c: Cell)
    requires Shape(p, s) && 0 <= c.rank < p.P
  {
    Prog(p, s, c.rank, c.task) > 5 * c.block
  }

  ghost predicate AuxStored<V>(p: Program<V>, s: State<V>, c: Cell)
    requires Shape(p, s) && 0 <= c.rank < p.P
  {
    Prog(p, s, c.rank, c.task) > 5 * c.block + if p.early(c.rank, c.task) then 1 else 4
  }

  /** The cell of the sender that fills c. */
  function From<V>(p: Program<V>, c: Cell): Cell {
    Cell(p.Pred(c.rank, c.task), c.task, c.block)
  }

  ghost predicate Receives<V>(p: Program<V>, c: Cell) {
    p.Has(c) && p.Waits(c.rank, c.task)
  }

  /** A signal counter is 1 exactly when the sender has notified this block. */
  ghost predicate SignalsOk<V>(p: Program<V>, s: State<V>)
    requires Shape(p, s)
  {
    forall c | Receives(p, c) :: Signal(s.sig, c) == if Notified(p, s, From(p, c)) then 1 else 0
  }

  /** A window block that has been stored holds the sender's message. */
  ghost predicate WindowsOk<V>(p: Program<V>, sp: Spec<V>, s: State<V>)
    requires Shape(p, s)
  {
    forall c | Receives(p, c) && StoredRemote(p, s, From(p, c)) :: Look(s.win, c) == Some(sp.msg(From(p, c)))
  }

  /** No rank overtakes its sender. */
  ghost predicate InOrder<V>(p: Program<V>, s: State<V>)
    requires Shape(p, s)
  {
    forall c | Receives(p, c) && Loaded(p, s, c) :: Notified(p, s, From(p, c))
  }

  ghost predicate OutputsOk<V>(p: Program<V>, sp: Spec<V>, s: State<V>)
    requires Shape(p, s)
  {
    forall c | p.Has(c) && StoredLocal(p, s, c) :: Look(s.mem.out, c) == Some(sp.out(c))
  }

  /** Second outputs: written ones are right, all others are as the host left them. */
  ghost predicate AuxOk<V>(p: Program<V>, sp: Spec<V>, aux0: map<Cell, V>, s: State<V>)
    requires Shape(p, s)
  {
    forall c | p.Has(c) ::
      Look(s.mem.aux, c) == if sp.aux(c).Some? && AuxStored(p, s, c) then sp.aux(c) else Look(aux0, c)
  }

  ghost predicate RegistersOk<V>(p: Program<V>, sp: Spec<V>, s: State<V>)
    requires Shape(p, s)
  {
    forall r | 0 <= r < p.P && Busy(p, s, r) && !s.ranks[r].phase.Wait? ::
      s.ranks[r].reg == Expected(p, sp, Current(p, s, r))
  }

  ghost predicate Invariant<V>(p: Program<V>, sp: Spec<V>, aux0: map<Cell, V>, s: State<V>) {
    && Shape(p, s) && RanksOk(p, s) && SignalsOk(p, s) && WindowsOk(p, sp, s) && InOrder(p, s)
    && OutputsOk(p, sp, s) && AuxOk(p, sp, aux0, s) && RegistersOk(p, sp, s)
  }

  lemma CurrentHas<V>(p: Program<V>, s: State<V>, r: int)
    requires Shape(p, s) && Busy(p, s, r) && RankOk(p, s, r)
    ensures p.Has(Current(p, s, r)) && Current(p, s, r).rank == r
    ensures Prog(p, s, r, Current(p, s, r).task) == 5 * Current(p, s, r).block + s.ranks[r].phase.Index()
  {
    RunningNotDone(p, s, r);
  }

  /** A running dispatch reads right tensors: its producers are complete. */
  lemma SuppliedNow<V>(p: Program<V>, sp: Spec<V>, aux0: map<Cell, V>, s: State<V>, r: int)
    requires p.Valid() && Invariant(p, sp, aux0, s) && Busy(p, s, r)
    ensures Supplied(p, sp, s.mem, r, Current(p, s, r).task)
  {
    hide SignalsOk, WindowsOk, InOrder, RegistersOk;
    var t := Current(p, s, r).task;
    assert RankOk(p, s, r);
    forall u, k | u in p.needs(r, t) && 0 <= k < p.Blocks(u) ensures Holds(sp, s.mem, Cell(r, u, k)) {
      assert Done(s.ranks[r], u);
      assert p.Has(Cell(r, u, k)) && Prog(p, s, r, u) == 5 * p.Blocks(u);
    }
  }

  lemma {:induction false} InvInitial<V>(p: Program<V>, sp: Spec<V>, win: map<Cell, V>, mem: Mem<V>)
    requires p.Valid()
    ensures Invariant(p, sp, mem.aux, Initial(p, win, mem))
  {
    var s := Initial(p, win, mem);
    assert forall r, t | 0 <= r < p.P :: Prog(p, s, r, t) == 0;
  }

  // ---------------------------------------------------------------------
  // Preservation
  // ---------------------------------------------------------------------

  lemma InvRoute<V>(p: Program<V>, sp: Spec<V>, aux0: map<Cell, V>, s: State<V>, r: int, t: int)
    requires p.Valid() && Invariant(p, sp, aux0, s) && CanRoute(p, s, r, t)
    ensures Invariant(p, sp, aux0, Route(p, s, r, t))
  {
    hide Prog, RankOk, Expected;
    var s' := Route(p, s, r, t);
    forall q | 0 <= q < p.P ensures RankOk(p, s', q) { RouteRankOk(p, s, r, t, q); }
    forall q, u | 0 <= q < p.P ensures Prog(p, s', q, u) == Prog(p, s, q, u) { RouteProg(p, s, r, t, q, u); }
    forall q | 0 <= q < p.P && Busy(p, s', q) && !s'.ranks[q].phase.Wait?
      ensures s'.ranks[q].reg == Expected(p, sp, Current(p, s', q))
    {
      IdleWaits(p, s, q);
      assert Busy(p, s, q) && Current(p, s', q) == Current(p, s, q);
    }
  }

  lemma IdleWaits<V>(p: Program<V>, s: State<V>, q: int)
    requires Shape(p, s) && 0 <= q < p.P && RankOk(p, s, q)
    ensures !Busy(p, s, q) ==> s.ranks[q].phase.Wait?
  {}

  /** s' is s with rank r one step further in its running dispatch. */
  ghost predicate Moved<V>(p: Program<V>, s: State<V>, s': State<V>, r: int) {
    && Shape(p, s) && Shape(p, s') && Busy(p, s, r) && p.Has(Current(p, s, r))
    && Prog(p, s, r, Current(p, s, r).task) == 5 * Current(p, s, r).block + s.ranks[r].phase.Index()
    && forall q, t | 0 <= q < p.P ::
        Prog(p, s', q, t) == Prog(p, s, q, t) + if q == r && t == Current(p, s, r).task then Gain(p, s, r) else 0
  }

  lemma ExecMoved<V>(p: Program<V>, s: State<V>, r: int)
    requires Shape(p, s) && Busy(p, s, r) && RankOk(p, s, r)
    ensures Moved(p, s, Exec(p, s, r), r)
  {
    hide Prog, Exec, RankOk;
    CurrentHas(p, s, r);
    ExecShape(p, s, r);
    forall q, t | 0 <= q < p.P
      ensures Prog(p, Exec(p, s, r), q, t)
        == Prog(p, s, q, t) + if q == r && t == Current(p, s, r).task then Gain(p, s, r) else 0
    {
      ExecProg(p, s, r, q, t);
    }
  }

  /** A receiver's sender sends. */
  lemma SenderSends<V>(p: Program<V>, c: Cell)
    requires Receives(p, c)
    ensures 0 <= From(p, c).rank < p.P && p.Has(From(p, c)) && p.Sends(From(p, c).rank, c.task)
    ensures p.Succ(From(p, c).rank, c.task) == c.rank
  {}

  lemma SignalsExec<V>(p: Program<V>, s: State<V>, r: int)
    requires Shape(p, s) && SignalsOk(p, s) && Busy(p, s, r) && Moved(p, s, Exec(p, s, r), r)
    ensures SignalsOk(p, Exec(p, s, r))
  {
    hide Prog;
    var s' := Exec(p, s, r);
    forall c | Receives(p, c) ensures Signal(s'.sig, c) == if Notified(p, s', From(p, c)) then 1 else 0 {
      SenderSends(p, c);
    }
  }

  lemma WindowsExec<V>(p: Program<V>, sp: Spec<V>, s: State<V>, r: int)
    requires Shape(p, s) && WindowsOk(p, sp, s) && Busy(p, s, r) && Moved(p, s, Exec(p, s, r), r)
    requires KernelsRight(p, sp, Current(p, s, r), s.mem) && RegistersOk(p, sp, s)
    ensures WindowsOk(p, sp, Exec(p, s, r))
  {
    hide Prog, Expected;
    var s' := Exec(p, s, r);
    forall c | Receives(p, c) && StoredRemote(p, s', From(p, c)) ensures Look(s'.win, c) == Some(sp.msg(From(p, c))) {
      SenderSends(p, c);
    }
  }

  lemma InOrderExec<V>(p: Program<V>, s: State<V>, r: int)
    requires Shape(p, s) && InOrder(p, s) && SignalsOk(p, s) && Busy(p, s, r) && !Spins(p, s, r)
    requires Moved(p, s, Exec(p, s, r), r)
    ensures InOrder(p, Exec(p, s, r))
  {
    hide Prog, Exec;
    var s' := Exec(p, s, r);
    forall c | Receives(p, c) && Loaded(p, s', c) ensures Notified(p, s', From(p, c)) {
      SenderSends(p, c);
    }
  }

  lemma OutputsExec<V>(p: Program<V>, sp: Spec<V>, s: State<V>, r: int)
    requires Shape(p, s) && OutputsOk(p, sp, s) && Busy(p, s, r) && Moved(p, s, Exec(p, s, r), r)
    requires KernelsRight(p, sp, Current(p, s, r), s.mem) && RegistersOk(p, sp, s)
    ensures OutputsOk(p, sp, Exec(p, s, r))
  {
    hide Prog, Expected;
  }

  lemma AuxExec<V>(p: Program<V>, sp: Spec<V>, aux0: map<Cell, V>, s: State<V>, r: int)
    requires Shape(p, s) && AuxOk(p, sp, aux0, s) && Busy(p, s, r) && Moved(p, s, Exec(p, s, r), r)
    requires KernelsRight(p, sp, Current(p, s, r), s.mem) && RegistersOk(p, sp, s)
    ensures AuxOk(p, sp, aux0, Exec(p, s, r))
  {
    hide Prog, Expected;
  }

  lemma RegistersExec<V>(p: Program<V>, sp: Spec<V>, s: State<V>, r: int)
    requires Shape(p, s) && RegistersOk(p, sp, s) && SignalsOk(p, s) && WindowsOk(p, sp, s)
    requires Busy(p, s, r) && !Spins(p, s, r) && Moved(p, s, Exec(p, s, r), r)
    ensures RegistersOk(p, sp, Exec(p, s, r))
  {
    hide Prog;
    var s' := Exec(p, s, r);
    var c := Current(p, s, r);
    if s.ranks[r].phase.Wait? && p.Waits(r, c.task) {
      assert Receives(p, c);
      assert StoredRemote(p, s, From(p, c));
    }
  }

  lemma InvExec<V(!new)>(p: Program<V>, sp: Spec<V>, aux0: map<Cell, V>, s: State<V>, r: int)
    requires p.Valid() && Solves(p, sp) && Invariant(p, sp, aux0, s) && Busy(p, s, r) && !Spins(p, s, r)
    ensures Invariant(p, sp, aux0, Exec(p, s, r))
  {
    hide Prog, Exec, KernelsRight, Supplied, SignalsOk, WindowsOk, InOrder, OutputsOk, AuxOk, RegistersOk, RankOk,
      Spins;
    assert RankOk(p, s, r);
    ExecMoved(p, s, r);
    CurrentHas(p, s, r);
    SuppliedNow(p, sp, aux0, s, r);
    assert KernelsRight(p, sp, Current(p, s, r), s.mem);
    forall q | 0 <= q < p.P ensures RankOk(p, Exec(p, s, r), q) { ExecRankOk(p, s, r, q); }
    SignalsExec(p, s, r);
    WindowsExec(p, sp, s, r);
    InOrderExec(p, s, r);
    OutputsExec(p, sp, s, r);
    AuxExec(p, sp, aux0, s, r);
    RegistersExec(p, sp, s, r);
  }

  /** The invariant holds after every sequence of steps. */
  lemma {:induction false} InvAlways<V(!new)>(p: Program<V>, sp: Spec<V>, win: map<Cell, V>, mem: Mem<V>,
                                       acts: seq<Act>)
    requires p.Valid() && Solves(p, sp) && After(p, Initial(p, win, mem), acts).Some?
    ensures Invariant(p, sp, mem.aux, After(p, Initial(p, win, mem), acts).value)
    decreases |acts|
  {
    hide Invariant, Exec, Route, Solves;
    if acts == [] {
      InvInitial(p, sp, win, mem);
    } else {
      InvAlways(p, sp, win, mem, acts[..|acts| - 1]);
      var m := After(p, Initial(p, win, mem), acts[..|acts| - 1]).value;
      match acts[|acts| - 1]
      case RouteAct(r, t) => InvRoute(p, sp, mem.aux, m, r, t);
      case ExecAct(r) => InvExec(p, sp, mem.aux, m, r);
    }
  }

  /** What a receiver may rely on: a counter never passes 1, a raised counter
      means the window holds the sender's message, and no rank loads a block
      before its sender has notified it. */
  lemma SignalMeansData<V>(p: Program<V>, sp: Spec<V>, aux0: map<Cell, V>, s: State<V>, c: Cell)
    requires Invariant(p, sp, aux0, s) && Receives(p, c)
    ensures Signal(s.sig, c) <= 1
    ensures Signal(s.sig, c) == 1 ==> Look(s.win, c) == Some(sp.msg(From(p, c)))
    ensures Loaded(p, s, c) ==> Notified(p, s, From(p, c)) && Signal(s.sig, c) == 1
  {
    hide Prog;
  }
}
