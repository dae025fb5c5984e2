/** The dispatch machine that runs the ring programs. Every rank executes its
    dispatches one at a time from a FIFO; a dispatch enters the FIFO once all
    producers of its tensor arguments are complete, in no other fixed order; a
    spinning wait keeps the core. Dispatches of one ring talk through symmetric
    windows and per-block signal counters, with the remote store and the notify
    as separate steps. */
module Machine {

  datatype Option<+V> = None | Some(value: V)

  /** Up sends to rank + 1, Down to rank - 1. */
  datatype Kind = Compute | Up | Down

  /** A block of a dispatch of a rank: names an output block, a recv window
      block and a signal counter. */
  datatype Cell = Cell(rank: int, task: int, block: int)

  /** The global tensors: what dispatches store (out), and the second output
      of the reverse rings (aux). */
  datatype Mem<V> = Mem(out: map<Cell, V>, aux: map<Cell, V>)

  /** N dispatches per rank; a dispatch of the same index on every rank belongs
      to the same ring, with its own windows. order is the position in the
      rank's program. The kernels get the tensors and the received block; early
      tells that aux is stored before the remote store. */
  datatype Program<!V> = Program(
    P: nat, N: nat, K: nat,
    kind: int -> Kind,
    needs: (int, int) -> set<int>,
    order: (int, int) -> nat,
    early: (int, int) -> bool,
    store: (Cell, Mem<V>, Option<V>) -> V,
    aux: (Cell, Mem<V>, Option<V>) -> Option<V>,
    send: (Cell, Mem<V>, Option<V>) -> V)
  {
    /** Producers come earlier in program order. */
    ghost predicate Valid() {
      1 <= K && forall r, t, u | 0 <= r < P && 0 <= t < N && u in needs(r, t) :: 0 <= u < N && order(r, u) < order(r, t)
    }

    predicate Waits(r: int, t: int) {
      (kind(t).Up? && 0 < r) || (kind(t).Down? && r < P - 1)
    }

    predicate Sends(r: int, t: int) {
      (kind(t).Up? && r < P - 1) || (kind(t).Down? && 0 < r)
    }

    /** The rank whose messages rank r receives in ring t, and the one it sends to. */
    function Pred(r: int, t: int): int { if kind(t).Up? then r - 1 else r + 1 }

    function Succ(r: int, t: int): int { if kind(t).Up? then r + 1 else r - 1 }

    function Blocks(t: int): nat { if kind(t).Compute? then 1 else K }

    ghost predicate Has(c: Cell) {
      0 <= c.rank < P && 0 <= c.task < N && 0 <= c.block < Blocks(c.task)
    }
  }

  /** The steps of one block of a ring dispatch, in order. */
  datatype Phase = Wait | Store | Send | Notify | Post {
    function Index(): nat {
      match this case Wait => 0 case Store => 1 case Send => 2 case Notify => 3 case Post => 4
    }
  }

  /** fifo in routing order; fifo[..pos] are complete and fifo[pos] runs. */
  datatype Rank<V> = Rank(fifo: seq<int>, pos: nat, blk: nat, phase: Phase, reg: Option<V>)

  datatype State<V> = State(ranks: seq<Rank<V>>, win: map<Cell, V>, sig: map<Cell, nat>, mem: Mem<V>)

  function Look<V>(m: map<Cell, V>, c: Cell): Option<V> {
    if c in m then Some(m[c]) else None
  }

  function Signal(sig: map<Cell, nat>, c: Cell): nat {
    if c in sig then sig[c] else 0
  }

  function Initial<V>(p: Program<V>, win: map<Cell, V>, mem: Mem<V>): State<V> {
    State(seq(p.P, _ => Rank([], 0, 0, Wait, None)), win, map[], mem)
  }

  // ---------------------------------------------------------------------
  // Steps
  // ---------------------------------------------------------------------

  predicate Done<V>(k: Rank<V>, t: int)
    requires k.pos <= |k.fifo|
  {
    t in k.fifo[..k.pos]
  }

  predicate Shape<V>(p: Program<V>, s: State<V>) {
    |s.ranks| == p.P && forall r | 0 <= r < p.P :: s.ranks[r].pos <= |s.ranks[r].fifo|
  }

  predicate CanRoute<V>(p: Program<V>, s: State<V>, r: int, t: int)
    requires Shape(p, s)
  {
    0 <= r < p.P && 0 <= t < p.N && t !in s.ranks[r].fifo && forall u | u in p.needs(r, t) :: Done(s.ranks[r], u)
  }

  function Route<V>(p: Program<V>, s: State<V>, r: int, t: int): State<V>
    requires Shape(p, s) && CanRoute(p, s, r, t)
  {
    s.(ranks := s.ranks[r := s.ranks[r].(fifo := s.ranks[r].fifo + [t])])
  }

  predicate Busy<V>(p: Program<V>, s: State<V>, r: int)
    requires Shape(p, s)
  {
    0 <= r < p.P && s.ranks[r].pos < |s.ranks[r].fifo|
  }

  /** The block that rank r works on. */
  function Current<V>(p: Program<V>, s: State<V>, r: int): Cell
    requires Shape(p, s) && Busy(p, s, r)
  {
    Cell(r, s.ranks[r].fifo[s.ranks[r].pos], s.ranks[r].blk)
  }

  predicate Spins<V>(p: Program<V>, s: State<V>, r: int)
    requires Shape(p, s) && Busy(p, s, r)
  {
    var c := Current(p, s, r);
    s.ranks[r].phase.Wait? && p.Waits(r, c.task) && Signal(s.sig, c) < 1
  }

  function Advance<V>(p: Program<V>, k: Rank<V>): Rank<V>
    requires k.pos < |k.fifo|
  {
    if k.blk + 1 < p.Blocks(k.fifo[k.pos]) then k.(blk := k.blk + 1, phase := Wait)
    else k.(pos := k.pos + 1, blk := 0, phase := Wait)
  }

  function PutAux<V>(mem: Mem<V>, c: Cell, v: Option<V>): Mem<V> {
    if v.Some? then mem.(aux := mem.aux[c := v.value]) else mem
  }

  /** One step of the dispatch that rank r runs. */
  function Exec<V>(p: Program<V>, s: State<V>, r: int): State<V>
    requires Shape(p, s) && Busy(p, s, r)
  {
    var k, c := s.ranks[r], Current(p, s, r);
    var peer := Cell(p.Succ(r, c.task), c.task, c.block);
    match k.phase
    case Wait =>
      s.(ranks := s.ranks[r := k.(phase := Store, reg := if p.Waits(r, c.task) then Look(s.win, c) else None)])
    case Store =>
      var mem := s.mem.(out := s.mem.out[c := p.store(c, s.mem, k.reg)]);
      s.(ranks := s.ranks[r := k.(phase := if p.Sends(r, c.task) then Send else Post)],
         mem := if p.early(r, c.task) then PutAux(mem, c, p.aux(c, s.mem, k.reg)) else mem)
    case Send =>
      s.(ranks := s.ranks[r := k.(phase := Notify)], win := s.win[peer := p.send(c, s.mem, k.reg)])
    case Notify =>
      s.(ranks := s.ranks[r := k.(phase := Post)], sig := s.sig[peer := Signal(s.sig, peer) + 1])
    case Post =>
      s.(ranks := s.ranks[r := Advance(p, k)],
         mem := if p.early(r, c.task) then s.mem else PutAux(s.mem, c, p.aux(c, s.mem, k.reg)))
  }

  datatype Act = RouteAct(rank: int, task: int) | ExecAct(rank: int)

  predicate Enabled<V>(p: Program<V>, s: State<V>, a: Act)
    requires Shape(p, s)
  {
    match a
    case RouteAct(r, t) => CanRoute(p, s, r, t)
    case ExecAct(r) => Busy(p, s, r) && !Spins(p, s, r)
  }

  function Step<V>(p: Program<V>, s: State<V>, a: Act): State<V>
    requires Shape(p, s) && Enabled(p, s, a)
  {
    match a
    case RouteAct(r, t) => Route(p, s, r, t)
    case ExecAct(r) => Exec(p, s, r)
  }

  /** The state after the steps acts, taken in this interleaving; None when
      one of them is not enabled. */
  function After<V>(p: Program<V>, s0: State<V>, acts: seq<Act>): Option<State<V>> {
    if acts == [] then Some(s0)
    else match After(p, s0, acts[..|acts| - 1])
      case None => None
      case Some(m) => if Shape(p, m) && Enabled(p, m, acts[|acts| - 1]) then Some(Step(p, m, acts[|acts| - 1]))
        else None
  }

  ghost predicate Terminal<V>(p: Program<V>, s: State<V>)
    requires Shape(p, s)
  {
    forall a: Act :: !Enabled(p, s, a)
  }

  predicate Complete<V>(p: Program<V>, s: State<V>)
    requires Shape(p, s)
  {
    forall r, t | 0 <= r < p.P && 0 <= t < p.N :: Done(s.ranks[r], t)
  }

  /** The steps acts can be taken in this order and complete every dispatch. */
  predicate Finishes<V>(p: Program<V>, s0: State<V>, acts: seq<Act>) {
    match After(p, s0, acts)
    case None => false
    case Some(s) => Shape(p, s) && Complete(p, s)
  }

  // ---------------------------------------------------------------------
  // Progress of one dispatch
  // ---------------------------------------------------------------------

  /** Steps that rank r has finished of dispatch t: five per block. */
  function Prog<V>(p: Program<V>, s: State<V>, r: int, t: int): nat
    requires Shape(p, s) && 0 <= r < p.P
  {
    var k := s.ranks[r];
    if Done(k, t) then 5 * p.Blocks(t)
    else if k.pos < |k.fifo| && k.fifo[k.pos] == t then 5 * k.blk + k.phase.Index()
    else 0
  }

  /** Discipline of one rank's FIFO. */
  ghost predicate RankOk<V>(p: Program<V>, s: State<V>, r: int)
    requires Shape(p, s) && 0 <= r < p.P
  {
    var k := s.ranks[r];
    && (forall i | 0 <= i < |k.fifo| :: 0 <= k.fifo[i] < p.N && forall u | u in p.needs(r, k.fifo[i]) :: Done(k, u))
    && (forall i, j | 0 <= i < j < |k.fifo| :: k.fifo[i] != k.fifo[j])
    && (k.pos == |k.fifo| ==> k.blk == 0 && k.phase.Wait?)
    && (k.pos < |k.fifo| ==>
         k.blk < p.Blocks(k.fifo[k.pos]) && (k.phase.Send? || k.phase.Notify? ==> p.Sends(r, k.fifo[k.pos])))
  }

  lemma RunningNotDone<V>(p: Program<V>, s: State<V>, r: int)
    requires Shape(p, s) && Busy(p, s, r) && RankOk(p, s, r)
    ensures !Done(s.ranks[r], s.ranks[r].fifo[s.ranks[r].pos])
    ensures Prog(p, s, r, s.ranks[r].fifo[s.ranks[r].pos]) == 5 * s.ranks[r].blk + s.ranks[r].phase.Index()
  {}

  /** A step of rank r moves only the dispatch that r runs. */
  function Gain<V>(p: Program<V>, s: State<V>, r: int): nat
    requires Shape(p, s) && Busy(p, s, r)
  {
    if s.ranks[r].phase.Store? && !p.Sends(r, Current(p, s, r).task) then 3 else 1
  }

  lemma ExecShape<V>(p: Program<V>, s: State<V>, r: int)
    requires Shape(p, s) && Busy(p, s, r)
    ensures Shape(p, Exec(p, s, r))
    ensures forall q | 0 <= q < p.P && q != r :: Exec(p, s, r).ranks[q] == s.ranks[q]
    ensures Exec(p, s, r).ranks[r].fifo == s.ranks[r].fifo && s.ranks[r].pos <= Exec(p, s, r).ranks[r].pos
  {}

  lemma DoneGrows<V>(k: Rank<V>, pos: nat, u: int)
    requires k.pos <= pos <= |k.fifo| && Done(k, u)
    ensures u in k.fifo[..pos]
  {
    assert k.fifo[..k.pos] == k.fifo[..pos][..k.pos];
  }

  lemma ExecProg<V>(p: Program<V>, s: State<V>, r: int, q: int, t: int)
    requires Shape(p, s) && Busy(p, s, r) && RankOk(p, s, r) && 0 <= q < p.P
    ensures Shape(p, Exec(p, s, r))
    ensures Prog(p, Exec(p, s, r), q, t)
         == Prog(p, s, q, t) + if q == r && t == Current(p, s, r).task then Gain(p, s, r) else 0
  {
    ExecShape(p, s, r);
    if q == r {
      RunningNotDone(p, s, r);
      var k, k' := s.ranks[r], Exec(p, s, r).ranks[r];
      if k'.pos == k.pos + 1 {
        assert k.fifo[..k.pos + 1] == k.fifo[..k.pos] + [k.fifo[k.pos]];
        if t != k.fifo[k.pos] && !Done(k, t) && k'.pos < |k.fifo| && k.fifo[k'.pos] == t {
          assert k'.blk == 0 && k'.phase.Wait?;
        }
      }
    }
  }

  lemma RouteProg<V>(p: Program<V>, s: State<V>, r: int, t: int, q: int, u: int)
    requires Shape(p, s) && CanRoute(p, s, r, t) && 0 <= q < p.P && RankOk(p, s, r)
    ensures Shape(p, Route(p, s, r, t)) && Prog(p, Route(p, s, r, t), q, u) == Prog(p, s, q, u)
  {
    if q == r {
      var k := s.ranks[r];
      assert (k.fifo + [t])[..k.pos] == k.fifo[..k.pos];
    }
  }

  lemma ExecRankOk<V>(p: Program<V>, s: State<V>, r: int, q: int)
    requires p.Valid() && Shape(p, s) && Busy(p, s, r) && 0 <= q < p.P && RankOk(p, s, r) && RankOk(p, s, q)
    ensures Shape(p, Exec(p, s, r)) && RankOk(p, Exec(p, s, r), q)
  {
    ExecShape(p, s, r);
    if q == r {
      var k, k' := s.ranks[r], Exec(p, s, r).ranks[r];
      forall i, u | 0 <= i < |k.fifo| && u in p.needs(r, k.fifo[i]) ensures Done(k', u) {
        DoneGrows(k, k'.pos, u);
      }
    }
  }

  lemma RouteRankOk<V>(p: Program<V>, s: State<V>, r: int, t: int, q: int)
    requires p.Valid() && Shape(p, s) && CanRoute(p, s, r, t) && 0 <= q < p.P && RankOk(p, s, q)
    ensures Shape(p, Route(p, s, r, t)) && RankOk(p, Route(p, s, r, t), q)
  {
    if q == r {
      var k, k' := s.ranks[r], Route(p, s, r, t).ranks[r];
      assert k'.fifo[..k.pos] == k.fifo[..k.pos];
      if k.pos == |k.fifo| { assert k'.fifo[k.pos] == t; }
    }
  }
}
