/** Who was routed ahead of whom: facts about one rank's FIFO that both the
    fused program and the scheduling probe argue with. */
module RoutingOrder {
  import opened Machine
  import opened MachineSafety

  /** u was routed with t not ahead of it. */
  ghost predicate Ahead<V>(k: Rank<V>, u: int, t: int) {
    exists j :: 0 <= j < |k.fifo| && k.fifo[j] == u && t !in k.fifo[..j]
  }

  lemma AheadStays<V>(k: Rank<V>, k': Rank<V>, u: int, t: int)
    requires Ahead(k, u, t) && k.fifo <= k'.fifo
    ensures Ahead(k', u, t)
  {
    var j :| 0 <= j < |k.fifo| && k.fifo[j] == u && t !in k.fifo[..j];
    assert k'.fifo[..j] == k.fifo[..j];
  }

  lemma SameAhead<V>(k: Rank<V>, k': Rank<V>, u: int, t: int)
    requires k.fifo == k'.fifo
    ensures Ahead(k, u, t) <==> Ahead(k', u, t)
  {}

  /** Routing v puts u ahead of t only if v is u and t is not routed. */
  lemma NewlyAhead<V>(k: Rank<V>, v: int, u: int, t: int)
    requires v !in k.fifo && Ahead(k.(fifo := k.fifo + [v]), u, t)
    ensures Ahead(k, u, t) || (v == u && t !in k.fifo)
  {
    var fifo := k.fifo + [v];
    var j :| 0 <= j < |fifo| && fifo[j] == u && t !in fifo[..j];
    if j < |k.fifo| { assert k.fifo[..j] == fifo[..j]; } else { assert fifo[..j] == k.fifo; }
  }

  /** A running u with t not complete was routed ahead of t. */
  lemma RunningAhead<V>(k: Rank<V>, u: int, t: int)
    requires k.pos < |k.fifo| && k.fifo[k.pos] == u && t !in k.fifo[..k.pos]
    ensures Ahead(k, u, t)
  {}

  /** ... and conversely. */
  lemma AheadRunning<V>(k: Rank<V>, u: int, t: int)
    requires Ahead(k, u, t) && k.pos < |k.fifo| && k.fifo[k.pos] == u
    requires forall i, j | 0 <= i < j < |k.fifo| :: k.fifo[i] != k.fifo[j]
    ensures t !in k.fifo[..k.pos]
  {
    var j :| 0 <= j < |k.fifo| && k.fifo[j] == u && t !in k.fifo[..j];
    assert j == k.pos;
  }

  /** With u ahead of t and u not started, t is not started either. */
  lemma NotStarted<V>(p: Program<V>, s: State<V>, r: int, u: int, t: int)
    requires Shape(p, s) && 0 <= r < p.P && RankOk(p, s, r) && Ahead(s.ranks[r], u, t) && u != t && 1 <= p.Blocks(u)
    requires Prog(p, s, r, u) == 0
    ensures Prog(p, s, r, t) == 0
  {
    var k := s.ranks[r];
    var j :| 0 <= j < |k.fifo| && k.fifo[j] == u && t !in k.fifo[..j];
    assert forall i | 0 <= i < k.pos :: k.fifo[i] in k.fifo[..k.pos];
    assert k.fifo[..k.pos] <= k.fifo[..j];
  }

  lemma UnroutedIdle<V>(p: Program<V>, s: State<V>, r: int, t: int)
    requires Shape(p, s) && 0 <= r < p.P && t !in s.ranks[r].fifo
    ensures Prog(p, s, r, t) == 0
  {}

  lemma FifoGrows<V>(p: Program<V>, s: State<V>, a: Act, r: int)
    requires Shape(p, s) && Enabled(p, s, a) && 0 <= r < p.P
    ensures Shape(p, Step(p, s, a)) && s.ranks[r].fifo <= Step(p, s, a).ranks[r].fifo
  {}

  lemma InvFacts<V>(p: Program<V>, sp: Spec<V>, aux0: map<Cell, V>, s: State<V>)
    requires Invariant(p, sp, aux0, s)
    ensures Shape(p, s) && RanksOk(p, s) && InOrder(p, s)
  {}

  lemma NoSteps<V>(p: Program<V>, s0: State<V>)
    ensures After(p, s0, []) == Some(s0)
  {}

  /** A dispatch without producers can be routed at once. */
  lemma Ready<V>(p: Program<V>, win: map<Cell, V>, mem: Mem<V>, acts: seq<Act>, s: State<V>, r: int, t: int)
    returns (acts': seq<Act>, s': State<V>)
    requires Shape(p, s) && After(p, Initial(p, win, mem), acts) == Some(s) && 0 <= r < p.P && 0 <= t < p.N
    requires p.needs(r, t) == {} && t !in s.ranks[r].fifo
    ensures acts' == acts + [RouteAct(r, t)] && Shape(p, s') && After(p, Initial(p, win, mem), acts') == Some(s')
    ensures s'.ranks == s.ranks[r := s.ranks[r].(fifo := s.ranks[r].fifo + [t])]
  {
    acts', s' := acts + [RouteAct(r, t)], Route(p, s, r, t);
    assert acts'[..|acts'| - 1] == acts;
  }
}
