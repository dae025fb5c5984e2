/** The torch.distributed workers of the ZeCO backward under synchronous
    rendezvous: the forward boundary chain, the hand-down of dS_recv, and the
    reverse chain in K blocks of h rows. Every send and recv blocks, and a recv
    names only its source, so a message is whatever that source sends next. */
module Rendezvous {
  import opened Tensor
  import opened Gla
  import opened ChunkBackward
  import opened AllScan
  import opened Ranks
  import opened Zeco
  import opened RestructuredRun
  import opened Boundaries
  import RingPrograms

  datatype Op = RecvF | SendF | RecvH | SendH | RecvR(k: nat) | SendR(k: nat)

  /** One rank's straight-line program; the last op is SendR(K - 1). */
  function OpAt(pc: nat): Op {
    if pc == 0 then RecvF else if pc == 1 then SendF else if pc == 2 then RecvH else if pc == 3 then SendH
    else if pc % 2 == 0 then RecvR((pc - 4) / 2) else SendR((pc - 5) / 2)
  }

  predicate IsSend(o: Op) { o.SendF? || o.SendH? || o.SendR? }

  /** The forward chain goes up, the others down. */
  function Peer(r: int, o: Op): int {
    match o
    case RecvF => r - 1
    case SendF => r + 1
    case RecvH => r + 1
    case SendH => r - 1
    case RecvR(_) => r + 1
    case SendR(_) => r - 1
  }

  /** The recv that a send is meant for. */
  function Meant(o: Op): Op {
    match o case SendF => RecvF case SendH => RecvH case SendR(k) => RecvR(k) case _ => o
  }

  /** recvGrad(r, S_recv) is the local stage-C adjoint dS_recv of rank r. */
  datatype Params = Params(P: nat, K: nat, h: nat, dv: nat, S: seq<Matrix>, g: seq<Vector>,
                           recvGrad: (int, Matrix) -> Matrix) {
    ghost predicate Valid() { 1 <= P && 1 <= K }

    function Dk(): nat { K * h }

    function End(): nat { 4 + 2 * K }
  }

  datatype Worker = Worker(pc: nat, srecv: Matrix, gout: Matrix, buf: Matrix, dS: seq<Matrix>, dgamma: seq<Matrix>)

  datatype Act = Skip(r: int) | Meet(from: int, to: int)

  function Initial(x: Params): seq<Worker> {
    seq(x.P, _ => Worker(0, Zeros(x.Dk(), x.dv), Zeros(x.Dk(), x.dv), Zeros(x.h, x.dv), [], []))
  }

  /** The op exists on rank r: its peer is a rank. */
  predicate Present(x: Params, r: int, o: Op) {
    0 <= Peer(r, o) < x.P
  }

  predicate Pending(x: Params, s: seq<Worker>, r: int) {
    |s| == x.P && 0 <= r < x.P && s[r].pc < x.End()
  }

  predicate Enabled(x: Params, s: seq<Worker>, a: Act) {
    match a
    case Skip(r) => Pending(x, s, r) && !Present(x, r, OpAt(s[r].pc))
    case Meet(q, r) =>
      Pending(x, s, q) && Pending(x, s, r)
      && IsSend(OpAt(s[q].pc)) && Peer(q, OpAt(s[q].pc)) == r && !IsSend(OpAt(s[r].pc)) && Peer(r, OpAt(s[r].pc)) == q
  }

  /** d_k = g_out + recv */
  function DBlock(gout: Matrix, buf: Matrix, off: int, h: nat, dv: nat): Matrix {
    Tab(h, dv, (i, j) => At(gout, off + i, j) + At(buf, i, j))
  }

  function ScaledBlock(g: Vector, d: Matrix, off: int, h: nat, dv: nat): Matrix {
    Tab(h, dv, (i, j) => El(g, off + i) * At(d, i, j))
  }

  function GammaBlock(d: Matrix, srecv: Matrix, off: int, h: nat, dv: nat): Matrix {
    Tab(h, 1, (i, _) => RingPrograms.RowSumAt(d, srecv, off, dv, i))
  }

  function SendState(x: Params, r: int, w: Worker): Matrix {
    Tab(x.Dk(), x.dv, (i, j) => At(Mat(x.S, r), i, j) + El(Vec(x.g, r), i) * At(w.srecv, i, j))
  }

  /** What rank r sends at its current op. */
  function Message(x: Params, r: int, w: Worker): Matrix {
    match OpAt(w.pc)
    case SendF => SendState(x, r, w)
    case SendH => x.recvGrad(r, w.srecv)
    case SendR(k) => ScaledBlock(Vec(x.g, r), DBlock(w.gout, w.buf, k * x.h, x.h, x.dv), k * x.h, x.h, x.dv)
    case _ => []
  }

  /** The local work at a send op: the reverse chain stores dS and, except on
      rank 0, dgamma. A skipped reverse recv clears its buffer. */
  function Local(x: Params, r: int, w: Worker): Worker {
    match OpAt(w.pc)
    case SendR(k) =>
      var d := DBlock(w.gout, w.buf, k * x.h, x.h, x.dv);
      w.(pc := w.pc + 1, dS := w.dS + [d],
         dgamma := w.dgamma + [if r == 0 then Zeros(x.h, 1) else GammaBlock(d, w.srecv, k * x.h, x.h, x.dv)])
    case RecvR(_) => w.(pc := w.pc + 1, buf := Zeros(x.h, x.dv))
    case _ => w.(pc := w.pc + 1)
  }

  function Receive(w: Worker, m: Matrix): Worker {
    match OpAt(w.pc)
    case RecvF => w.(pc := w.pc + 1, srecv := m)
    case RecvH => w.(pc := w.pc + 1, gout := m)
    case _ => w.(pc := w.pc + 1, buf := m)
  }

  function Step(x: Params, s: seq<Worker>, a: Act): seq<Worker>
    requires Enabled(x, s, a)
  {
    match a
    case Skip(r) => s[r := Local(x, r, s[r])]
    case Meet(q, r) => s[q := Local(x, q, s[q])][r := Receive(s[r], Message(x, q, s[q]))]
  }

  function After(x: Params, acts: seq<Act>): RingPrograms.M.Option<seq<Worker>> {
    if acts == [] then RingPrograms.M.Some(Initial(x))
    else match After(x, acts[..|acts| - 1])
      case None => RingPrograms.M.None
      case Some(s) => if Enabled(x, s, acts[|acts| - 1]) then RingPrograms.M.Some(Step(x, s, acts[|acts| - 1]))
        else RingPrograms.M.None
  }

  // ---------------------------------------------------------------------
  // Control: matched messages, deadlock freedom, termination
  // ---------------------------------------------------------------------

  /** Blocks sent, and received, on the reverse chain. */
  function SentR(pc: int): int { if pc <= 5 then 0 else (pc - 4) / 2 }

  function GotR(pc: int): int { if pc <= 4 then 0 else (pc - 3) / 2 }

  /** Neighbours agree on how many messages of each chain have passed. */
  ghost predicate Agree(low: Worker, high: Worker) {
    (low.pc > 1 <==> high.pc > 0) && (high.pc > 3 <==> low.pc > 2) && SentR(high.pc) == GotR(low.pc)
  }

  ghost predicate Control(x: Params, s: seq<Worker>) {
    |s| == x.P && (forall r | 0 <= r < x.P :: s[r].pc <= x.End())
      && (forall r | 0 <= r < x.P - 1 :: Agree(s[r], s[r + 1]))
  }

  /** Each recv meets the send meant for it, two messages on one pair or not. */
  lemma Matched(x: Params, s: seq<Worker>, q: int, r: int)
    requires Control(x, s) && Enabled(x, s, Meet(q, r))
    ensures Meant(OpAt(s[q].pc)) == OpAt(s[r].pc)
  {
    if q < r { assert Agree(s[q], s[q + 1]); } else { assert Agree(s[r], s[r + 1]); }
  }

  predicate Moves(a: Act, p: int) {
    match a case Skip(r) => p == r case Meet(q, r) => p == q || p == r
  }

  lemma StepPc(x: Params, s: seq<Worker>, a: Act, p: int)
    requires Enabled(x, s, a) && 0 <= p < x.P
    ensures |Step(x, s, a)| == x.P && Step(x, s, a)[p].pc == s[p].pc + if Moves(a, p) then 1 else 0
  {
    hide Message, Present;
  }

  lemma ControlStep(x: Params, s: seq<Worker>, a: Act)
    requires Control(x, s) && Enabled(x, s, a)
    ensures Control(x, Step(x, s, a))
  {
    hide Step;
    var s' := Step(x, s, a);
    StepPc(x, s, a, if a.Skip? then a.r else a.from);
    forall p | 0 <= p < x.P ensures s'[p].pc <= x.End() { StepPc(x, s, a, p); }
    forall p | 0 <= p < x.P - 1 ensures Agree(s'[p], s'[p + 1]) { AgreeStep(x, s, a, p); }
  }

  /** Ops of the lower, and of the upper, rank of a pair that exchange a message of the pair. */
  predicate LowEnd(o: Op) { o.SendF? || o.RecvH? || o.RecvR? }

  predicate HighEnd(o: Op) { o.RecvF? || o.SendH? || o.SendR? }

  /** Ops that exchange nothing within the pair keep it in agreement. */
  lemma AgreeAlone(low: Worker, high: Worker, low': Worker, high': Worker)
    requires Agree(low, high)
    requires low'.pc == low.pc || (low'.pc == low.pc + 1 && !LowEnd(OpAt(low.pc)))
    requires high'.pc == high.pc || (high'.pc == high.pc + 1 && !HighEnd(OpAt(high.pc)))
    ensures Agree(low', high')
  {}

  /** So does a matched exchange. */
  lemma AgreeTogether(low: Worker, high: Worker, low': Worker, high': Worker)
    requires Agree(low, high) && low'.pc == low.pc + 1 && high'.pc == high.pc + 1 && LowEnd(OpAt(low.pc))
    requires HighEnd(OpAt(high.pc))
    requires Meant(OpAt(low.pc)) == Meant(OpAt(high.pc))
    ensures Agree(low', high')
  {}

  lemma AgreeStep(x: Params, s: seq<Worker>, a: Act, p: int)
    requires Control(x, s) && Enabled(x, s, a) && 0 <= p < x.P - 1
    ensures |Step(x, s, a)| == x.P && Agree(Step(x, s, a)[p], Step(x, s, a)[p + 1])
  {
    hide Step, Agree, OpAt;
    StepPc(x, s, a, p);
    StepPc(x, s, a, p + 1);
    assert Agree(s[p], s[p + 1]);
    var s' := Step(x, s, a);
    if a.Meet? { Matched(x, s, a.from, a.to); }
    if Moves(a, p) && Moves(a, p + 1) {
      AgreeTogether(s[p], s[p + 1], s'[p], s'[p + 1]);
    } else {
      AgreeAlone(s[p], s[p + 1], s'[p], s'[p + 1]);
    }
  }

  /** A rank of least progress; among equals the lowest at the first recv, and
      the highest everywhere else. */
  ghost predicate Least(s: seq<Worker>, n: int, r: int) {
    0 <= r < n <= |s| && forall p | 0 <= p < n ::
      s[r].pc <= s[p].pc && (s[p].pc == s[r].pc ==> if s[r].pc == 0 then r <= p else p <= r)
  }

  lemma {:induction false} LeastExists(s: seq<Worker>, n: nat) returns (r: int)
    requires 0 < n <= |s|
    ensures Least(s, n, r)
  {
    if n == 1 {
      r := 0;
    } else {
      r := LeastExists(s, n - 1);
      if s[n - 1].pc < s[r].pc || (s[n - 1].pc == s[r].pc && s[r].pc != 0) { r := n - 1; }
    }
  }

  /** Some step is possible until every rank is through. */
  lemma SomeStep(x: Params, s: seq<Worker>) returns (a: Act)
    requires x.Valid() && Control(x, s) && exists r :: 0 <= r < x.P && s[r].pc < x.End()
    ensures Enabled(x, s, a)
  {
    var r := LeastExists(s, x.P);
    var o := OpAt(s[r].pc);
    if !Present(x, r, o) {
      a := Skip(r);
    } else if IsSend(o) {
      LeastIsNoSender(x, s, r);
    } else {
      var q := Peer(r, o);
      SenderReady(x, s, r);
      a := Meet(q, r);
    }
  }

  /** The step moves only workers that are still in the forward exchange. */
  ghost predicate InForward(x: Params, s: seq<Worker>, a: Act) {
    |s| == x.P && forall p | 0 <= p < x.P && Moves(a, p) :: s[p].pc < 2
  }

  /** The forward exchange makes progress by itself until every rank is through it. */
  lemma ForwardStep(x: Params, s: seq<Worker>, r0: int) returns (a: Act)
    requires x.Valid() && Control(x, s) && 0 <= r0 < x.P && s[r0].pc < 2
    ensures Enabled(x, s, a) && InForward(x, s, a)
  {
    var r := 0;
    while s[r].pc >= 2
      invariant 0 <= r <= r0 && forall q | 0 <= q < r :: s[q].pc >= 2
      decreases r0 - r
    {
      r := r + 1;
    }
    assert 0 < r ==> Agree(s[r - 1], s[r]);
    assert r < x.P - 1 ==> Agree(s[r], s[r + 1]);
    a := if s[r].pc == 0 || r == x.P - 1 then Skip(r) else Meet(r, r + 1);
  }

  lemma LeastIsNoSender(x: Params, s: seq<Worker>, r: int)
    requires x.Valid() && Control(x, s) && Least(s, x.P, r) && Pending(x, s, r) && IsSend(OpAt(s[r].pc))
    ensures !Present(x, r, OpAt(s[r].pc))
  {
    assert r < x.P - 1 ==> Agree(s[r], s[r + 1]);
    assert 0 < r ==> Agree(s[r - 1], s[r]);
  }

  lemma SenderReady(x: Params, s: seq<Worker>, r: int)
    requires x.Valid() && Control(x, s) && Least(s, x.P, r) && Pending(x, s, r) && !IsSend(OpAt(s[r].pc))
    requires Present(x, r, OpAt(s[r].pc))
    ensures var q := Peer(r, OpAt(s[r].pc)); Pending(x, s, q) && IsSend(OpAt(s[q].pc)) && Peer(q, OpAt(s[q].pc)) == r
  {
    if OpAt(s[r].pc).RecvF? { assert Agree(s[r - 1], s[r]); } else { assert Agree(s[r], s[r + 1]); }
  }

  function Passed(s: seq<Worker>, n: nat): nat
    requires n <= |s|
  {
    if n == 0 then 0 else Passed(s, n - 1) + s[n - 1].pc
  }

  lemma {:induction false} PassedUpdate(s: seq<Worker>, n: nat, r: int, w: Worker)
    requires n <= |s| && 0 <= r < |s| && w.pc == s[r].pc + 1
    ensures Passed(s[r := w], n) == Passed(s, n) + if r < n then 1 else 0
  {
    if n > 0 { PassedUpdate(s, n - 1, r, w); }
  }

  lemma {:induction false} PassedBound(s: seq<Worker>, n: nat, top: nat)
    requires n <= |s| && forall r | 0 <= r < n :: s[r].pc <= top
    ensures Passed(s, n) <= n * top
  {
    if n > 0 {
      PassedBound(s, n - 1, top);
      assert (n - 1) * top + top == n * top;
    }
  }

  lemma StepPasses(x: Params, s: seq<Worker>, a: Act)
    requires Control(x, s) && Enabled(x, s, a)
    ensures |Step(x, s, a)| == x.P && Passed(Step(x, s, a), x.P) > Passed(s, x.P)
  {
    match a
    case Skip(r) => PassedUpdate(s, x.P, r, Local(x, r, s[r]));
    case Meet(q, r) =>
      Matched(x, s, q, r);
      PassedUpdate(s, x.P, q, Local(x, q, s[q]));
      PassedUpdate(s[q := Local(x, q, s[q])], x.P, r, Receive(s[r], Message(x, q, s[q])));
  }

  // ---------------------------------------------------------------------
  // Data
  // ---------------------------------------------------------------------

  function Srecv(x: Params, r: int): Matrix {
    RecvState(x.S, x.g, x.Dk(), x.dv, r)
  }

  function RecvGradients(x: Params): seq<Matrix> {
    seq(x.P, r => x.recvGrad(r, Srecv(x, r)))
  }

  /** g_out of rank r: dS_recv of the rank above. */
  function Gout(x: Params, r: int): Matrix {
    Mat(Shifted(RecvGradients(x), x.Dk(), x.dv), r)
  }

  function D(x: Params, r: int, i: int, j: int): real {
    ScanAdj(x.g, Shifted(RecvGradients(x), x.Dk(), x.dv), r, i, j)
  }

  function DTab(x: Params, r: int, off: int): Matrix {
    Tab(x.h, x.dv, (i, j) => D(x, r, off + i, j))
  }

  function MsgTab(x: Params, r: int, off: int): Matrix {
    Tab(x.h, x.dv, (i, j) => El(Vec(x.g, r), off + i) * D(x, r, off + i, j))
  }

  function GammaTab(x: Params, r: int, off: int): Matrix {
    if r == 0 then Zeros(x.h, 1) else GammaBlock(DTab(x, r, off), Srecv(x, r), off, x.h, x.dv)
  }

  function Buf(x: Params, r: int, k: int): Matrix {
    if r == x.P - 1 then Zeros(x.h, x.dv) else MsgTab(x, r + 1, k * x.h)
  }

  ghost predicate Stored(x: Params, r: int, w: Worker) {
    |w.dS| == |w.dgamma| == SentR(w.pc)
    && forall k | 0 <= k < |w.dS| :: w.dS[k] == DTab(x, r, k * x.h) && w.dgamma[k] == GammaTab(x, r, k * x.h)
  }

  ghost predicate RankData(x: Params, r: int, w: Worker) {
    && (w.pc > 0 || r == 0 ==> w.srecv == Srecv(x, r))
    && (w.pc > 2 || r == x.P - 1 ==> w.gout == Gout(x, r))
    && (OpAt(w.pc).SendR? ==> w.buf == Buf(x, r, OpAt(w.pc).k))
    && Stored(x, r, w)
  }

  ghost predicate Data(x: Params, s: seq<Worker>) {
    |s| == x.P && forall r | 0 <= r < x.P :: RankData(x, r, s[r])
  }

  lemma SendStateIs(x: Params, r: int, w: Worker)
    requires 0 <= r < x.P && w.srecv == Srecv(x, r)
    ensures SendState(x, r, w) == Srecv(x, r + 1)
  {
    hide At, El, Mat, Vec;
    var m, n := SendState(x, r, w), Srecv(x, r + 1);
    forall i, j | 0 <= i < x.Dk() && 0 <= j < x.dv ensures At(m, i, j) == At(n, i, j) {
      if r == 0 { ScanFirst(x.S, x.g, i, j); }
    }
    SameMatrix(m, n, x.Dk(), x.dv);
  }

  lemma GoutIs(x: Params, r: int)
    requires 0 <= r < x.P
    ensures r < x.P - 1 ==> Gout(x, r) == x.recvGrad(r + 1, Srecv(x, r + 1))
    ensures r == x.P - 1 ==> Gout(x, r) == Zeros(x.Dk(), x.dv)
  {
    hide Srecv;
  }

  lemma DBlockIs(x: Params, r: int, k: int)
    requires 0 <= r < x.P && 0 <= k < x.K
    ensures DBlock(Gout(x, r), Buf(x, r, k), k * x.h, x.h, x.dv) == DTab(x, r, k * x.h)
  {
    hide At, El, Mat, Vec, Shifted, RecvGradients, ScanAdj;
    var off := k * x.h;
    var m, n := DBlock(Gout(x, r), Buf(x, r, k), off, x.h, x.dv), DTab(x, r, off);
    forall i, j | 0 <= i < x.h && 0 <= j < x.dv ensures At(m, i, j) == At(n, i, j) {
      DStep(x, r, off + i, j);
      assert At(n, i, j) == D(x, r, off + i, j);
    }
    SameMatrix(m, n, x.h, x.dv);
  }

  lemma DStep(x: Params, r: int, i: int, j: int)
    requires 0 <= r < x.P
    ensures D(x, r, i, j)
      == At(Gout(x, r), i, j) + if r == x.P - 1 then 0.0 else El(Vec(x.g, r + 1), i) * D(x, r + 1, i, j)
  {
    hide At, El, Vec, Srecv;
  }

  lemma MessageIs(x: Params, r: int, k: int)
    ensures ScaledBlock(Vec(x.g, r), DTab(x, r, k * x.h), k * x.h, x.h, x.dv) == MsgTab(x, r, k * x.h)
  {
    hide At, El, Vec, D;
    var off := k * x.h;
    SameMatrix(ScaledBlock(Vec(x.g, r), DTab(x, r, off), off, x.h, x.dv), MsgTab(x, r, off), x.h, x.dv);
  }

  lemma LocalData(x: Params, r: int, w: Worker)
    requires 0 <= r < x.P && RankData(x, r, w) && w.pc < x.End()
    requires IsSend(OpAt(w.pc)) || !Present(x, r, OpAt(w.pc))
    ensures RankData(x, r, Local(x, r, w))
  {
    hide Srecv, Gout, DTab, MsgTab, DBlock, GammaBlock;
    GoutIs(x, r);
    if OpAt(w.pc).SendR? { DBlockIs(x, r, OpAt(w.pc).k); }
  }

  lemma ReceiveData(x: Params, q: int, r: int, s: seq<Worker>)
    requires Control(x, s) && Data(x, s) && Enabled(x, s, Meet(q, r))
    ensures RankData(x, r, Receive(s[r], Message(x, q, s[q])))
  {
    hide Srecv, Gout, DTab, MsgTab, DBlock, GammaTab, SendState, ScaledBlock;
    Matched(x, s, q, r);
    assert RankData(x, q, s[q]) && RankData(x, r, s[r]);
    match OpAt(s[q].pc)
    case SendF => SendStateIs(x, q, s[q]);
    case SendH => GoutIs(x, r);
    case SendR(k) =>
      DBlockIs(x, q, k);
      MessageIs(x, q, k);
    case _ =>
  }

  lemma DataStep(x: Params, s: seq<Worker>, a: Act)
    requires Control(x, s) && Data(x, s) && Enabled(x, s, a)
    ensures Data(x, Step(x, s, a))
  {
    hide RankData, Local, Receive, Message;
    match a
    case Skip(r) => LocalData(x, r, s[r]);
    case Meet(q, r) =>
      LocalData(x, q, s[q]);
      ReceiveData(x, q, r, s);
  }

  lemma DataInitial(x: Params)
    ensures Data(x, Initial(x)) && Control(x, Initial(x))
  {
    hide Shifted, RecvGradients;
    if 0 < x.P { GoutIs(x, x.P - 1); }
  }

  lemma {:induction false} Always(x: Params, acts: seq<Act>)
    requires After(x, acts).Some?
    ensures Control(x, After(x, acts).value) && Data(x, After(x, acts).value)
    ensures |acts| <= Passed(After(x, acts).value, x.P)
    decreases |acts|
  {
    hide Control, Data, Step, Enabled, Initial;
    if acts == [] {
      DataInitial(x);
      CountOk(x, Initial(x));
    } else {
      var prev := acts[..|acts| - 1];
      Always(x, prev);
      var m := After(x, prev).value;
      CountOk(x, m);
      ControlStep(x, m, acts[|acts| - 1]);
      DataStep(x, m, acts[|acts| - 1]);
      StepPasses(x, m, acts[|acts| - 1]);
    }
  }

  lemma CountOk(x: Params, s: seq<Worker>)
    requires Control(x, s)
    ensures |s| == x.P
  {}

  /** What every rank holds at the end. */
  ghost predicate Finished(x: Params, s: seq<Worker>) {
    |s| == x.P && forall r | 0 <= r < x.P ::
      && s[r].pc == x.End() && s[r].srecv == Srecv(x, r) && |s[r].dS| == |s[r].dgamma| == x.K
      && forall k | 0 <= k < x.K :: s[r].dS[k] == DTab(x, r, k * x.h) && s[r].dgamma[k] == GammaTab(x, r, k * x.h)
  }

  lemma AppendStep(x: Params, acts: seq<Act>, a: Act)
    requires After(x, acts).Some?
    ensures After(x, acts + [a]) == if Enabled(x, After(x, acts).value, a)
      then RingPrograms.M.Some(Step(x, After(x, acts).value, a)) else RingPrograms.M.None
  {
    hide Enabled, Step;
    assert (acts + [a])[..|acts + [a]| - 1] == acts;
  }

  /** Worker w is at its i-th reverse recv (even) or send (odd), i >= 0. */
  ghost predicate InReverse(x: Params, w: Worker, odd: bool) {
    4 <= w.pc < x.End() && (w.pc % 2 == 1 <==> odd)
  }

  /** Which steps a run can take next. Two neighbours meet exactly when the lower
      stands at its forward send and the upper at its forward recv (ops 1 and 0),
      or the upper at its hand-down and the lower at the recv of it (ops 3 and 2),
      or the upper at a reverse send and the lower at a reverse recv. An op
      without a peer is passed by exactly its own rank. */
  lemma NextExactly(x: Params, acts: seq<Act>, q: int, r: int)
    requires x.Valid() && After(x, acts).Some?
    ensures var s := After(x, acts).value;
      && |s| == x.P
      && (After(x, acts + [Meet(q, r)]).Some? <==>
            && 0 <= q < x.P && 0 <= r < x.P
            && ((r == q + 1 && s[q].pc == 1 && s[r].pc == 0)
                || (r == q - 1 && s[q].pc == 3 && s[r].pc == 2)
                || (r == q - 1 && InReverse(x, s[q], true) && InReverse(x, s[r], false))))
      && (After(x, acts + [Skip(r)]).Some? <==>
            && 0 <= r < x.P
            && ((r == 0 && (s[r].pc == 0 || s[r].pc == 3 || InReverse(x, s[r], true)))
                || (r == x.P - 1 && (s[r].pc == 1 || s[r].pc == 2 || InReverse(x, s[r], false)))))
  {
    hide After, Step, Data;
    Always(x, acts);
    AppendStep(x, acts, Meet(q, r));
    AppendStep(x, acts, Skip(r));
  }

  /** Every interleaving of rendezvous is finite, never stops early, and ends
      with the boundary states and boundary gradients of the AllScan. */
  lemma EveryRunFinishes(x: Params, acts: seq<Act>)
    requires x.Valid() && After(x, acts).Some?
    ensures |acts| <= x.P * x.End()
    ensures Finished(x, After(x, acts).value) <==> forall a: Act :: After(x, acts + [a]).None?
    ensures exists all: seq<Act> :: acts <= all && After(x, all).Some? && Finished(x, After(x, all).value)
    ensures forall q, r | After(x, acts + [Meet(q, r)]).Some? ::
      0 <= q < |After(x, acts).value| && 0 <= r < |After(x, acts).value|
      && Meant(OpAt(After(x, acts).value[q].pc)) == OpAt(After(x, acts).value[r].pc)
  {
    hide Enabled, RankData, Agree, Finished, After, Step, OpAt;
    Always(x, acts);
    var s := After(x, acts).value;
    PassedBound(s, x.P, x.End());
    forall q, r | After(x, acts + [Meet(q, r)]).Some?
      ensures 0 <= q < |s| && 0 <= r < |s| && Meant(OpAt(s[q].pc)) == OpAt(s[r].pc)
    {
      AppendStep(x, acts, Meet(q, r));
      MeetInRange(x, s, q, r);
      Matched(x, s, q, r);
    }
    FinishedExactly(x, acts);
    var all := Completed(x, acts);
  }

  /** A run is finished exactly when it cannot go on. */
  lemma FinishedExactly(x: Params, acts: seq<Act>)
    requires x.Valid() && After(x, acts).Some?
    ensures Finished(x, After(x, acts).value) <==> forall a: Act :: After(x, acts + [a]).None?
  {
    hide Enabled, RankData, Agree, After, Step;
    Always(x, acts);
    var s := After(x, acts).value;
    if r :| 0 <= r < x.P && s[r].pc < x.End() {
      var a := SomeStep(x, s);
      AppendStep(x, acts, a);
    } else {
      AllThrough(x, s);
      forall a: Act ensures After(x, acts + [a]).None? {
        AppendStep(x, acts, a);
        NoneEnabled(x, s, a);
      }
    }
  }

  lemma NoneEnabled(x: Params, s: seq<Worker>, a: Act)
    requires |s| == x.P && forall r | 0 <= r < x.P :: s[r].pc >= x.End()
    ensures !Enabled(x, s, a)
  {}

  lemma {:induction false} Completed(x: Params, acts: seq<Act>) returns (all: seq<Act>)
    requires x.Valid() && After(x, acts).Some?
    ensures acts <= all && After(x, all).Some? && Finished(x, After(x, all).value)
    decreases x.P * x.End() - |acts|
  {
    hide Enabled, RankData, Agree, Finished, After, Step;
    Always(x, acts);
    var s := After(x, acts).value;
    if r :| 0 <= r < x.P && s[r].pc < x.End() {
      var a := SomeStep(x, s);
      AppendStep(x, acts, a);
      Always(x, acts + [a]);
      PassedBound(After(x, acts + [a]).value, x.P, x.End());
      assert (acts + [a])[..|acts|] == acts;
      all := Completed(x, acts + [a]);
    } else {
      AllThrough(x, s);
      all := acts;
    }
  }

  lemma MeetInRange(x: Params, s: seq<Worker>, q: int, r: int)
    requires Enabled(x, s, Meet(q, r))
    ensures 0 <= q < |s| && 0 <= r < |s|
  {}

  lemma AllThrough(x: Params, s: seq<Worker>)
    requires x.Valid() && Data(x, s) && forall r | 0 <= r < x.P :: s[r].pc == x.End()
    ensures Finished(x, s)
  {
    hide DTab, GammaTab, Srecv, Gout, Buf;
    forall r | 0 <= r < x.P ensures s[r].srecv == Srecv(x, r) && Stored(x, r, s[r]) && SentR(s[r].pc) == x.K {
      assert RankData(x, r, s[r]);
    }
  }

  /** No worker has left the forward exchange, and its two ops come first. */
  ghost predicate StillForward(s: seq<Worker>) {
    forall r | 0 <= r < |s| :: s[r].pc <= 2
  }

  /** A run of the forward exchange alone: finite, never stuck, and ends with
      the received states of the AllScan. */
  lemma ForwardFinishes(x: Params, acts: seq<Act>)
    requires x.Valid() && After(x, acts).Some? && StillForward(After(x, acts).value)
    ensures |acts| <= x.P * 2
    ensures var s := After(x, acts).value;
      && |s| == x.P && (forall r | 0 <= r < x.P && s[r].pc > 0 :: s[r].srecv == Srecv(x, r))
      && ((exists a: Act :: After(x, acts + [a]).Some? && StillForward(After(x, acts + [a]).value))
          || (forall r | 0 <= r < x.P :: s[r].pc == 2))
  {
    hide Enabled, InForward, Agree, Srecv, Gout, Stored, Buf, After, Step;
    Always(x, acts);
    var s := After(x, acts).value;
    PassedBound(s, x.P, 2);
    forall r | 0 <= r < x.P && s[r].pc > 0 ensures s[r].srecv == Srecv(x, r) { assert RankData(x, r, s[r]); }
    if r :| 0 <= r < x.P && s[r].pc < 2 {
      var a := ForwardStep(x, s, r);
      AppendStep(x, acts, a);
      ForwardStays(x, s, a);
    }
  }

  lemma ForwardStays(x: Params, s: seq<Worker>, a: Act)
    requires Enabled(x, s, a) && |s| == x.P && InForward(x, s, a) && StillForward(s)
    ensures StillForward(Step(x, s, a))
  {
    hide Step, Enabled, Moves;
    if x.P == 0 { StepPcNone(x, s, a); } else { StepPc(x, s, a, 0); }
    forall p | 0 <= p < x.P ensures Step(x, s, a)[p].pc <= 2 { StepPc(x, s, a, p); }
  }

  lemma StepPcNone(x: Params, s: seq<Worker>, a: Act)
    requires Enabled(x, s, a)
    ensures |Step(x, s, a)| == x.P
  {
    hide Message, Present;
  }

  /** Every run of the forward exchange goes on to a complete one. */
  lemma {:induction false} ForwardCompletes(x: Params, acts: seq<Act>) returns (all: seq<Act>)
    requires x.Valid() && After(x, acts).Some? && StillForward(After(x, acts).value)
    ensures acts <= all && After(x, all).Some? && |After(x, all).value| == x.P
    ensures forall r | 0 <= r < x.P :: After(x, all).value[r].pc == 2
    decreases x.P * 2 - |acts|
  {
    hide StillForward, After, Srecv;
    ForwardFinishes(x, acts);
    if a: Act :| After(x, acts + [a]).Some? && StillForward(After(x, acts + [a]).value) {
      ForwardFinishes(x, acts + [a]);
      assert (acts + [a])[..|acts|] == acts;
      all := ForwardCompletes(x, acts + [a]);
    } else {
      all := acts;
    }
  }

  // ---------------------------------------------------------------------
  // The workers' gradients
  // ---------------------------------------------------------------------

  /** What the local scans and the local stage-C adjoint promise. */
  ghost predicate RightWorkers(x: Params, xs: seq<Gla>, L: nat, C: nat, dOs: seq<Matrix>) {
    && x.Valid() && |xs| == |dOs| == x.P && Config(xs, L, C, x.Dk(), x.dv) && LocalScans(xs, x.S, x.g)
    && (forall r | 0 <= r < x.P :: IsMatrix(dOs[r], L, x.dv))
    && forall r, b: Matrix | 0 <= r < x.P :: HoldsRecvGrad(xs[r], dOs[r], x.recvGrad(r, b), xs[r].T)
  }

  /** The K stored blocks as one tensor, and as one vector. */
  function BlockAt(blocks: seq<Matrix>, h: nat, i: int, j: int): real {
    if h == 0 then 0.0 else At(Mat(blocks, i / h), i % h, j)
  }

  function Joined(x: Params, blocks: seq<Matrix>): Matrix {
    Tab(x.Dk(), x.dv, (i, j) => BlockAt(blocks, x.h, i, j))
  }

  function JoinedV(x: Params, blocks: seq<Matrix>): Vector {
    TabV(x.Dk(), i => BlockAt(blocks, x.h, i, 0))
  }

  lemma JoinedRight(x: Params, s: seq<Worker>, r: nat)
    requires x.Valid() && Finished(x, s) && r < x.P
    ensures s[r].srecv == RecvState(x.S, x.g, x.Dk(), x.dv, r)
    ensures Joined(x, s[r].dS) == StateGradient(RecvGradients(x), x.g, x.Dk(), x.dv, r)
    ensures JoinedV(x, s[r].dgamma) == DecayGradient(x.S, RecvGradients(x), x.g, x.Dk(), x.dv, r)
  {
    hide RecvState, StateGradient, DecayGradient, DTab, GammaTab, El, At;
    var d, e := StateGradient(RecvGradients(x), x.g, x.Dk(), x.dv, r),
      DecayGradient(x.S, RecvGradients(x), x.g, x.Dk(), x.dv, r);
    BoundaryShapes(x, r);
    forall i, j | 0 <= i < x.Dk() && 0 <= j < x.dv ensures At(Joined(x, s[r].dS), i, j) == At(d, i, j) {
      RowInBlock(x.K, x.h, i);
      BlockOfGradient(x, r, i / x.h, i % x.h, j);
    }
    SameMatrix(Joined(x, s[r].dS), d, x.Dk(), x.dv);
    forall i | 0 <= i < x.Dk() ensures El(JoinedV(x, s[r].dgamma), i) == El(e, i) {
      RowInBlock(x.K, x.h, i);
      BlockOfDecay(x, r, i / x.h, i % x.h);
    }
    SameVector(JoinedV(x, s[r].dgamma), e);
  }

  lemma BoundaryShapes(x: Params, r: nat)
    ensures IsMatrix(StateGradient(RecvGradients(x), x.g, x.Dk(), x.dv, r), x.Dk(), x.dv)
    ensures |DecayGradient(x.S, RecvGradients(x), x.g, x.Dk(), x.dv, r)| == x.Dk()
  {}

  /** The boundary values that a finished worker differentiates with are those
      of the whole sequence. */
  lemma WorkerBoundaries(x: Params, s: seq<Worker>, xs: seq<Gla>, L: nat, C: nat, dOs: seq<Matrix>, r: nat)
    requires RightWorkers(x, xs, L, C, dOs) && Finished(x, s) && r < x.P
    ensures RightState(xs[r], Flatten(xs, L, x.Dk(), x.dv), r * L, s[r].srecv)
    ensures RightAdj(xs[r], Flatten(xs, L, x.Dk(), x.dv), r * L, FlattenRows(dOs), Joined(x, s[r].dS))
    ensures NoGap(xs[r], s[r].srecv, Joined(x, s[r].dS), JoinedV(x, s[r].dgamma))
  {
    hide RightState, RightAdj, NoGap, Flatten, FlattenRows, LocalScans, RecvGrads, IsMatrix, RecvState, StateGradient,
      DecayGradient, Joined, JoinedV, Finished;
    forall p | 0 <= p < x.P ensures HoldsRecvGrad(xs[p], dOs[p], RecvGradients(x)[p], xs[p].T) {
      assert RecvGradients(x)[p] == x.recvGrad(p, Srecv(x, p));
    }
    RecvGradsHold(xs, dOs, RecvGradients(x));
    BoundariesRight(xs, L, C, x.Dk(), x.dv, dOs, x.S, x.g, RecvGradients(x), r);
    JoinedRight(x, s, r);
  }

  /** So the gradients of its outputs, S_total and g_total, weighted by dO and
      by the dS and dgamma it stored, are its slice of the golden gradients. */
  lemma WorkerGradients(x: Params, s: seq<Worker>, xs: seq<Gla>, L: nat, C: nat, dOs: seq<Matrix>, r: nat)
    requires RightWorkers(x, xs, L, C, dOs) && Finished(x, s) && r < x.P
    ensures LocalIsSlice(xs[r], Flatten(xs, L, x.Dk(), x.dv), r * L, dOs[r], FlattenRows(dOs), s[r].srecv,
      Joined(x, s[r].dS), JoinedV(x, s[r].dgamma))
  {
    hide RightState, RightAdj, NoGap, Flatten, FlattenRows, IsMatrix, Joined, JoinedV, LocalIsSlice;
    WorkerBoundaries(x, s, xs, L, C, dOs, r);
    RankIsSlice(xs, L, C, x.Dk(), x.dv, dOs, r, s[r].srecv, Joined(x, s[r].dS), JoinedV(x, s[r].dgamma));
  }

  lemma BlockOfGradient(x: Params, r: int, k: int, i: int, j: int)
    requires 0 <= k < x.K && 0 <= i < x.h && 0 <= j < x.dv
    ensures At(DTab(x, r, k * x.h), i, j) == At(StateGradient(RecvGradients(x), x.g, x.Dk(), x.dv, r), k * x.h + i, j)
  {
    hide At, ScanAdj, Shifted, RecvGradients;
    RowFits(x.K, x.h, k, i);
  }

  lemma RowFits(K: nat, h: nat, k: int, i: int)
    requires 0 <= k < K && 0 <= i < h
    ensures 0 <= k * h + i < K * h
  {
    MulMono(k + 1, K, h);
    MulMono(0, k, h);
  }

  lemma BlockOfDecay(x: Params, r: int, k: int, i: int)
    requires 0 <= k < x.K && 0 <= i < x.h
    ensures At(GammaTab(x, r, k * x.h), i, 0)
      == El(DecayGradient(x.S, RecvGradients(x), x.g, x.Dk(), x.dv, r), k * x.h + i)
  {
    hide At, El, ScanAdj, Shifted, RecvGradients, RecvState;
    RowFits(x.K, x.h, k, i);
    var d := StateGradient(RecvGradients(x), x.g, x.Dk(), x.dv, r);
    var b, off := DTab(x, r, k * x.h), k * x.h;
    if r != 0 {
      forall j | 0 <= j < x.dv ensures At(b, i, j) == At(d, off + i, j) { BlockOfGradient(x, r, k, i, j); }
      SumExt(0, x.dv, j => At(b, i, j) * At(Srecv(x, r), off + i, j),
        j => At(d, off + i, j) * At(RecvState(x.S, x.g, x.Dk(), x.dv, r), off + i, j));
    }
  }
}
