# ZeCO / GLA sequence parallelism: verified model

Gated linear attention (GLA) keeps a `[dk, dv]` state per head,
`S_t = diag(a_t) S_{t-1} + k_t^T v_t`, with output `o_t = q_t S_t`. ZeCO cuts the
sequence over P ranks: every rank scans its own slice in chunks, one AllScan ring
hands the boundary states up the ranks, and in the backward pass a second ring
hands boundary gradients down. This project models that operator over exact
reals, together with the ring programs that distribute it, and proves that the
fast, blocked and distributed forms compute what the token recurrence computes.

## Main results

* **Sequence parallelism is exact.** `Zeco.TorchZeCo.Forward` and `.Backward`:
  for every P, L, C dividing L, dk, dv and all non-zero gates, the composed
  operator gives the outputs and the four gradients of the token recurrences on
  the flattened sequence. `RestructuredRun.Run` is the same theorem for the
  kernels as the device program restructures them.
* **The goldens, written out.** `Golden.ExpectedGla` and `.ExpectedGlaBackward` are
  tied to the recurrences and, through `Unrolled`, to sums of products of the
  operands' entries; so are the AllScan references.
* **The backwards are gradients.** `Gradient.OutExpansion` shows what the
  derivative of the outputs is, `Gradient.TrueGradient` that the golden backward
  is its adjoint. `LocalGradient.ReturnsTheGradient` says that what
  `gla_chunk_backward` returns is the gradient of one device's outputs,
  `S_total` and `g_total`, whatever gradients arrive for the three;
  `AllScan.ScanExpansion` and `.BackwardIsAdjoint` are the same for the collective.
* **Why the gate gradient can be recovered by a reverse sum.**
  `Gla.GateConservation`; and `Zeco.GateExact`: the device's `dA` is also the
  whole sequence's gate gradient if and only if `dg_total` is the row sum
  `dS_total * S_recv`, which the reverse ring delivers (`Zeco.GapClosed`).
* **Rings on every interleaving.** `Machine` is the dispatch machine (per-rank
  FIFO ordered by readiness, one dispatch at a time, spinning waits, remote store
  and notify as separate steps); `MachineLiveness.ExecutesExactly` and `.RoutesExactly`
  say which steps a run can take next. `RingPrograms` proves safety, termination,
  that every run can be completed, and the final values of the forward and backward AllScan programs for
  any number of rings, ranks and blocks.
* **The two-ring deadlock.** `FusedSchedule`: with a program-order edge between
  a rank's two ring dispatches every schedule of the five-phase program finishes
  with the sequential results; without it a run ends complete exactly when rank
  0's reverse receive was not routed ahead of its forward send, and the stall is
  reachable for every P >= 2. `FusedGolden.FusedGradients`: with the program's own
  kernels, every interleaving that is through has stored each rank's slice of the
  golden gradients. `ProbeArms` and `FusedComm` decide the outcome for the arms of
  the two-rank probe.
* **Processes.** `WorkerGolden`: the point-to-point workers, on every interleaving
  of their blocking sends and receives, end with the golden outputs and gradients.
* **Blocked rewrites.** `HeadBlocks`, `KeyRows` and `Stage1`: head-dim, key-row
  and value blocking, the in-place scratch state, the loop interchange and the
  removal of the state carry preserve the unblocked result.

## Layout

| file | content |
|---|---|
| Tensor, Snapshot | finite sums and their exchange, matrices with a total accessor, in-place row and block writes |
| Gla, Unrolled, Golden, Gradient | the token recurrences and their laws, the same written out on the operands' entries, the golden loops, the true-gradient theorem |
| Chunk, ChunkForward, ChunkGrad, ChunkBackward, LocalGradient | one device's chunk-parallel forward and backward, and of what that backward is the gradient |
| AllScan, TorchAllScan | the collective, its adjoint theorem, the K-blocked in-process ring |
| Ranks, Zeco, Boundaries | slices of a sequence, the composed operator, and the boundary values of a run |
| Restructured, LocalKernels, KernelBuffers | the kernels as restructured for the device: their algebra, the kernels as functions on tensors, and as methods that fill buffers |
| RestructuredRun | the five phases in order |
| Machine, MachineSafety, MachineLiveness, RoutingOrder | the dispatch machine, its invariant, termination and deadlock freedom |
| RingPrograms, PyPtoHost | the AllScan programs on the machine, and the host that stages their buffers |
| FusedProgram, FusedSchedule, FusedGolden | the five-phase program, which schedules finish, and that it computes the golden gradients |
| ProbeArms, FusedComm | the two-rank scheduling probe |
| Rendezvous, WorkerGolden | the point-to-point workers under synchronous rendezvous, and that they compute the golden |
| HeadBlocks, KeyRows, Stage1 | the blocked rewrites |

## Reading the contracts

* FP32 is modelled by `real`. `b = exp(tril @ log a)` and `cumprod(a)` are both
  the inclusive product of the gates (`Gla.Decay`). The chunk forms divide by it,
  so they require non-zero gates (`Gla.GatesNonZero`), which the documented range
  (0, 1) implies; the token recurrences, the conservation law and the gradient
  theorems of `Gradient` need no condition. `Tensor.Quot` is total by convention and is only
  used where the divisor is non-zero.
* `Out`, `GradQ`, `GradK`, `GradV`, `GradA` take the state before the first token
  and the gradient after the last one; `NOTHING` (both absent) is the golden.
  `At` reads zero outside a matrix, so an absent boundary is the zero state.
* Buffers that the source fills in place are arrays that the methods modify; the
  tensors it rebinds are values. A chunk's cached quantities (`Chunk.Recompute`)
  are one value per chunk.
* A run of a ring program is a sequence of steps (`Machine.After`); a theorem
  about all such sequences is a theorem about all interleavings. Routing is more
  liberal than the runtime (a ready dispatch may be routed at any later moment),
  so the liveness results cover every ready-order FIFO; the reachable stalls use
  only dispatches that are ready at submission, routed in submission order.
* Kernels on the machine read their operands from the global tensors. What they
  must compute is given once (a `Spec`), and `Solves` says that right producers
  and a right received block lead to right outputs and messages.

## Where code and documentation differ

* `allscan/implementations/torch_ref.py:52-87` does not check that K divides dk,
  as the other backends do: `TorchAllScan.TorchAllscan.Run` says which rows are
  then left alone.
* `notes/devtools/b4_pad_program.py:940-945` argues from the standalone reverse
  ring that submission order does not matter. The standalone ring indeed never
  stalls (`RingPrograms.BackwardRings`); the two-ring program can
  (`FusedSchedule.StallReachable`).
* `notes/issues/pypto-comm-dispatch-ordering/ISSUE.md:1-12` calls the stall
  deterministic. In the model it depends on routing: `FusedSchedule.Outcome` and
  `ProbeArms.SplitOutcome` give the exact condition, and the order in which ready
  dispatches are submitted meets it.

## Model

| member | source | states |
|---|---|---|
| Golden.ExpectedGla | gla/common.py:39-61 | the in-place token loop stores q_t against the state recurrence from zero; of the entries of Q, K, V and A that is the sum over i of q_t[i] times the sum over s <= t of (a_{s+1} .. a_t)[i] k_s[i] v_s[j] |
| Golden.ExpectedGlaBackward | gla/common.py:64-115 | the reverse token loop stores the four sums over the adjoint recurrence and the state history; of the entries of Q, K, V, A and dO these are the sums of products Past and Future |
| Unrolled.OutUnrolled | gla/common.py:39-61 | the output, written out on any functions that agree with the entries Q[t][i], K[t][i], V[t][j] and A[t][i] |
| Unrolled.KeyGradsUnrolled | gla/common.py:106-114 | dQ, dK and dA, written out on those entries and dO[t][j] |
| Unrolled.ValueGradUnrolled | gla/common.py:106-114 | dV, written out on those entries |
| Gradient.OutExpansion | gla/common.py:39-61 | for every direction of the inputs and of the boundary state, and every step h, the moved outputs are the outputs, plus h OutDot, plus h^2 times a polynomial: OutDot is the derivative |
| Gradient.BoundaryGradient | gla/common.py:64-115 | with a boundary state before the first token and a boundary gradient after the last: the derivative of outputs and last state, weighted by dO and that gradient, equals the five gradients weighted by the direction |
| Gradient.TrueGradient | gla/common.py:64-115 | for every direction, the derivative of the outputs weighted by dO equals the sum of the four returned gradients weighted by the direction: the golden backward is the gradient of the golden forward |
| Gla.StateGradStep | gla/common.py:106-114 | the row sum of adjoint times state drops by q dQ - k dK from one token to the next |
| Gla.WindowConservation | gla/common.py:106-114 | over any window of tokens the drops add up |
| Gla.GateConservation | gla/common.py:106-114 | a_t dA_t is the sum over s >= t of q_s dQ_s - k_s dK_s, for every t and key column, with no condition on the gates |
| Chunk.StateClosed | gla/common.py:244-258 | inside a chunk the state recurrence is the cumulative decay times (start + sum of k v over the decays) |
| Chunk.AdjClosed | gla/common.py:106-114 | the adjoint recurrence inside a chunk, in the same closed form |
| Chunk.IntraClosed | gla/common.py:249-253 | the masked product (q b)(k / b)^T v is q b against the partial sum of the chunk: exchange of the two sums under the mask |
| Chunk.ChunkAdvance | gla/common.py:255-257 | gamma S + (k gamma / b)^T v is the state after the chunk |
| Chunk.ChunkOutput | gla/common.py:297-305 | inter-chunk plus intra-chunk output is the output of the token recurrence from the boundary |
| ChunkForward.GlaChunkScan | gla/common.py:198-260 | every snapshot is the local state and decay before its chunk, O_intra is the within-chunk output, and the totals are those of the whole slice |
| ChunkForward.HistoryHolds | gla/common.py:304-304 | S_prev[n] + c_prev[n] S_recv is the state before chunk n started from the received boundary |
| ChunkForward.GlaReconstruct | gla/common.py:263-306 | on what the scan returned, the outputs are those of the token recurrence started from S_recv |
| ChunkGrad.ChunkDQ | gla/common.py:397-411 | (dO H^T + dsc Kintra) b is the token gradient dQ |
| ChunkGrad.ChunkDK | gla/common.py:404-427 | dKintra / b + dKstate gamma / b is the token gradient dK |
| ChunkGrad.ChunkDV | gla/common.py:405-422 | scores^T dO + Kstate dSloc is the token gradient dV |
| ChunkGrad.StateGradientStep | gla/common.py:424-433 | gamma dSloc + Qt^T dO carries the adjoint from the end of a chunk to its start |
| ChunkGrad.DGammaClosed | gla/common.py:423-430 | the three dgamma terms together are, times gamma, the adjoint against the state at the end of the chunk (plus the excess of dg_total) |
| ChunkGrad.DbRow | gla/common.py:409-429 | db b is q dQ - k dK on every row: the conserved flow |
| ChunkBackward.GradO | gla/common.py:390-412 | the forward-order pass stores dQ and the intra-chunk halves of dK and dV, hands dH and dcprev on, and accumulates the gradient of the received boundary |
| ChunkBackward.BackStep | gla/common.py:414-434 | loop invariant of the reverse walk: dSloc stays the sequential adjoint at the chunk boundary and dcvec stays rowsum(dSloc S_recv) plus the decayed excess of dg_total |
| ChunkBackward.GradH | gla/common.py:414-434 | the reverse-order pass completes dK and dV and leaves db such that db b is the flow, with everything later in the last row |
| ChunkBackward.ReverseSumClosed | gla/common.py:436-441 | the reverse cumulative sum of db b is a_t dA_t plus the excess of dg_total |
| ChunkBackward.GlaChunkBackward | gla/common.py:309-443 | dQ, dK, dV and dS_recv are the token gradients for any boundary state and boundary gradient; dA is the token gradient plus the excess of dg_total over rowsum(dS_total S_recv), scaled by total decay over gate |
| LocalGradient.LossExpansion | gla/common.py:198-306 | <dO, O> + <dS_total, S_total> + <dg_total, g_total> of one device, moved by h along any direction of q, k, v, a and S_recv, is itself plus h LossDot plus h^2 times a polynomial |
| LocalGradient.DotAffine | gla/common.py:198-306 | the derivative of the state is affine in the boundary and its direction: the local S_total and g_total carry all of it |
| LocalGradient.DecayDotClosed | gla/common.py:255-258 | the derivative of the total decay is the sum over t of adot_t times total decay over a_t |
| LocalGradient.LocalAdjoint | gla/common.py:309-349 | for every dO, dS_total and dg_total, LossDot equals dQ, dK, dV, dA and dS_recv of gla_chunk_backward weighted by the direction: it is the reverse of gla_chunk_scan and gla_reconstruct |
| LocalGradient.ReturnsTheGradient | gla/implementations/torch_ref.py:164-172 | so what autograd is asked for, the gradient of [O_p, S_total, g_total] with [dO, dS, dgamma], is what gla_chunk_backward returns |
| Zeco.GateExact | gla/common.py:323-326 | the dA returned is the gate gradient of the recurrence from S_recv to dS_total, that is of the whole sequence, if and only if dg_total equals rowsum(dS_total S_recv); zeros (P = 1) meet it |
| Unrolled.ScanUnrolled | allscan/common.py:28-45 | out[p] is the sum over s <= p of S[s], decayed by gamma[s+1] .. gamma[p], entry by entry |
| Unrolled.ScanAdjUnrolled | allscan/common.py:72-104 | dS[p] is the sum over s >= p of g_out[s], decayed by gamma[p+1] .. gamma[s] |
| Unrolled.GammaGradUnrolled | allscan/common.py:105-107 | dgamma[p] is the row sum of that against out[p-1], zero for p = 0 |
| AllScan.ScanExpansion | allscan/common.py:28-45 | for every direction of S and gamma, every step h and every rank, the moved outputs are the outputs, plus h ScanDot, plus h^2 times a polynomial: ScanDot is the derivative of the scan |
| AllScan.BackwardIsAdjoint | allscan/common.py:72-108 | sum over ranks of <g_out, outdot> equals sum of <dS, Sdot> + <dgamma, gammadot> for that derivative, for every P |
| TorchAllScan.ExpectedAllscan | allscan/common.py:28-45 | the in-place loop over ranks stores the scan |
| TorchAllScan.ExpectedAllscanBackward | allscan/common.py:72-108 | the reverse loop stores the adjoint scan and the row sums, dgamma[0] = 0 |
| TorchAllScan.TorchAllscan.Run | allscan/implementations/torch_ref.py:52-64 | the K-blocked ring stores the scan on the covered rows and leaves the others as they were |
| TorchAllScan.TorchAllscan.RunBackward | allscan/implementations/torch_ref.py:66-87 | the K-blocked reverse ring stores adjoint and dgamma on the covered rows; uncovered dS rows keep their old values, uncovered dgamma rows are zero |
| Ranks.FlattenOperands | gla/common.py:180-191 | row l of rank p's Q, K, V and A is row p L + l of the same operand of the flattened sequence |
| Ranks.BoundaryState | gla/implementations/torch_ref.py:84-94 | AllScan of the local totals gives, at rank p, the state of the whole sequence after p's slice |
| Ranks.BoundaryAdj | gla/implementations/torch_ref.py:155-162 | the reverse scan of the shifted dS_recv gives the adjoint of the whole sequence after p's slice |
| Zeco.StageA | gla/implementations/torch_ref.py:72-83 | all ranks' local scans, with their caches |
| Zeco.ReceivedRight | gla/implementations/torch_ref.py:88-94 | out[p-1] (zeros for rank 0) is the state of the whole sequence before p's slice |
| Zeco.TorchZeCo.Forward | gla/implementations/torch_ref.py:68-95 | chunk scan, AllScan and reconstruction together give expected_gla on the flattened sequence, for every P, L, C dividing L, dk and dv |
| Zeco.TorchZeCo.RecvGradients | gla/implementations/torch_ref.py:148-153 | phase 1: the gradient of every received boundary through the rank's own outputs |
| Zeco.TorchZeCo.BoundaryBackward | gla/implementations/torch_ref.py:155-162 | phase 2: dS_total is the adjoint of the whole sequence at the boundary and dgamma leaves no excess |
| Zeco.GapClosed | gla/implementations/torch_ref.py:155-162 | the dgamma of the reverse scan is rowsum(dS_total S_recv) on every rank, rank 0 included |
| Zeco.SlicesRight | gla/implementations/torch_ref.py:164-172 | with the right boundary state and gradient, one rank's four gradients are its slice of the gradients of the whole sequence |
| Zeco.TorchZeCo.Backward | gla/implementations/torch_ref.py:97-173 | the three phases with gla_chunk_backward as local adjoint give expected_gla_backward on the flattened sequence, for every P, L, C dividing L, dk and dv |
| Boundaries.BoundariesRight | gla/implementations/torch_ref.py:85-162 | from right local totals and right dS_recv, the forward scan, the reverse scan of the shifted dS_recv and the row sums are the boundary state and gradients of the whole sequence on every rank |
| Snapshot.StoreBlock | notes/devtools/b4_math_check.py:46-56 | storing a [d, c] block at row n d of a two-dimensional buffer leaves every other block alone |
| KernelBuffers.KRecompute | notes/devtools/b4_math_check.py:39-60 | the snapshot buffers and S_total hold the local states and decays of gla_chunk_scan, with gamma pushed onto the state; buffer by buffer they are the tensors of LocalKernels |
| KernelBuffers.KGradO | notes/devtools/b4_math_check.py:67-105 | outputs, handed-on blocks, log-domain flow and dS_recv accumulator of the output stage; buffer by buffer they are the tensors of LocalKernels |
| Restructured.PushedVIs | notes/devtools/b4_math_check.py:135-138 | pushing gamma onto dSloc commutes with the dV product |
| Restructured.PushedKIs | notes/devtools/b4_math_check.py:135-139 | ... and with the dK product |
| Restructured.CorrectionIs | notes/devtools/b4_math_check.py:142-146 | the three correction terms together are gamma times dgamma_n |
| Restructured.KernelGate | notes/devtools/b4_math_check.py:139-150 | (triu (dgcso - dK_h k) + corr) / a equals the gate gradient of gla_chunk_backward |
| Restructured.CarryIs | notes/devtools/b4_math_check.py:154-157 | the unguarded carries are those of gla_chunk_backward |
| KernelBuffers.KGradH | notes/devtools/b4_math_check.py:112-158 | the walk n = N - 1 - m stores the dK, dV and dA of gla_chunk_backward, and the tensors of LocalKernels |
| RestructuredRun.RingBackward | notes/devtools/b4_math_check.py:165-183 | dStot is that adjoint on every rank, dgam the row sum against the rank's own S_recv, zero on rank 0 and (being a product with zero) on rank P - 1 |
| RestructuredRun.Phase2 | notes/devtools/b4_math_check.py:198-202 | the forward ring leaves each rank the scan of the ranks below it, zeros for rank 0 |
| RestructuredRun.FusedGamma | notes/devtools/b4_math_check.py:165-183 | this dgam is the dgamma of the standalone backward |
| RestructuredRun.Run | notes/devtools/b4_math_check.py:186-223 | the five phases give expected_gla_backward on the flattened sequence for every P, P = 1 included |
| MachineSafety.InvAlways | notes/issues/pypto-comm-dispatch-ordering/ISSUE.md:45-63 | on every interleaving of every dispatch graph: counters, windows, load order, outputs and registers stay right |
| MachineSafety.SignalMeansData | allscan/implementations/pypto/program.py:51-66 | a counter never exceeds 1; a raised counter means the window block holds the sender's message; no rank loads a block that has not been notified |
| MachineLiveness.RunsAreFinite | notes/issues/pypto-comm-dispatch-ordering/ISSUE.md:45-63 | every run has at most P N (5 K + 1) steps |
| MachineLiveness.TerminalIsComplete | notes/issues/pypto-comm-dispatch-ordering/ISSUE.md:45-63 | if a level function drops from every waiting receiver to its waiting sender, a state without steps has completed every dispatch |
| MachineLiveness.ExecutesExactly | notes/issues/pypto-comm-dispatch-ordering/ISSUE.md:45-63 | after any run, a rank may take its next step exactly when it has a routed, unfinished dispatch and the sender of the current block, if there is one, has got past its notify |
| MachineLiveness.RoutesExactly | notes/issues/pypto-comm-dispatch-ordering/ISSUE.md:45-63 | after any run, a dispatch may be routed exactly when it is unrouted and its producers are complete |
| MachineLiveness.EveryRunFinishes | notes/issues/pypto-comm-dispatch-ordering/ISSUE.md:45-63 | deadlock freedom and functional correctness of any program with such levels |
| MachineLiveness.EveryRunCompletes | notes/issues/pypto-comm-dispatch-ordering/ISSUE.md:45-63 | with such levels every run extends to a complete one with the specified results, and the runs that cannot be extended are exactly the complete ones |
| MachineLiveness.MaximalRun | notes/issues/pypto-comm-dispatch-ordering/ISSUE.md:45-63 | every run extends to one that cannot be extended |
| RingPrograms.ForwardSolves | allscan/implementations/pypto/program.py:19-168 | the first, middle and last kernels compute the scan from a right received block |
| RingPrograms.ForwardSafety | allscan/implementations/pypto/program.py:43-168 | at any moment a raised counter of rank r means its window block holds that block of out[r-1] |
| RingPrograms.ForwardSteps | allscan/implementations/pypto/program.py:43-168 | what a forward run can do next: route any unrouted ring, and go on with a block once the rank below has notified it |
| RingPrograms.ForwardRings | allscan/implementations/pypto/batched_program.py:30-69 | B rings on their own windows, any B, P >= 2, K and any per-rank order: every run is finite and extends to a complete one, only complete runs cannot be extended, and then every output block is expected_allscan |
| RingPrograms.BackwardSolves | allscan/implementations/pypto/program_backward.py:37-218 | the source, middle and terminal kernels compute d, gamma d and the row sums |
| RingPrograms.BackwardSafety | allscan/implementations/pypto/program_backward.py:37-218 | a raised counter of rank r means its window block holds gamma[r+1] d[r+1] |
| RingPrograms.BackwardSteps | allscan/implementations/pypto/program_backward.py:37-218 | what a reverse run can do next, with the rank above |
| RingPrograms.BackwardRings | allscan/implementations/pypto/batched_backward_program.py:29-73 | B reverse rings: every run is finite and extends to a complete one, only complete runs cannot be extended, and then dS and dgamma of ranks >= 1 are expected_allscan_backward, rank 0's dgamma is untouched |
| RingPrograms.ReadFinds | allscan/implementations/pypto/batched_backward_program.py:29-73 | an element is read from row i of block k, at row k h + i of its rank and ring |
| PyPtoHost.PyPtoAllscanBackward.CopyInputs | allscan/implementations/pypto/impl.py:225-238 | whatever the buffers held, out_prev[0] is zero and out_prev[r] is outs[r-1] |
| PyPtoHost.PyPtoAllscanBackward.RunBackward | allscan/implementations/pypto/impl.py:240-252 | through is true exactly when the interleaving is a run of the program on the shifted outs and zeroed buffers that cannot be extended, and then slice 0 is expected_allscan_backward, dgamma[0] = 0 included |
| PyPtoHost.ThroughExactly | allscan/implementations/pypto/impl.py:240-252 | every run of the staged program extends to one that is through |
| PyPtoHost.HostMustZero | allscan/implementations/pypto/program_backward.py:171-218 | after any run that completes, rank 0's dgamma is the reference zero if and only if the host's buffer was zero there before |
| FusedProgram.ForwardRight | notes/devtools/b4_pad_program.py:697-754 | the forward ring steps store the received boundary and send the next state |
| FusedProgram.ReverseRight | notes/devtools/b4_pad_program.py:790-868 | source, middle and terminal steps store d and dgam and send d[r-1] |
| FusedProgram.FusedSolves | notes/devtools/b4_pad_program.py:980-1020 | for any local kernels, the program computes the five phases in sequence along the tensor arguments of the dispatch graph |
| FusedSchedule.FusedSteps | notes/devtools/b4_pad_program.py:980-1020 | what a run can do next: each dispatch waits for exactly the dispatches whose tensors it takes (and the token), each ring block for its neighbour's notify |
| FusedSchedule.TokenedFinishes | notes/devtools/b4_pad_program.py:980-1020 | with a program-order edge between each rank's two ring dispatches: for every P >= 2, K, schedule and interleaving, finite, extends to a complete run, only complete runs cannot be extended, and grad_o and grad_h of every rank store the sequential results |
| FusedSchedule.Outcome | notes/devtools/b4_pad_program.py:980-1020 | with or without that edge every run is finite, and one that cannot be extended is complete if and only if rank 0's reverse receive was not routed ahead of its forward send; complete runs have the sequential results |
| FusedSchedule.NoneCompletes | notes/devtools/b4_pad_program.py:1005-1016 | once it was routed ahead, no continuation completes |
| FusedSchedule.StallReachable | notes/devtools/b4_pad_program.py:980-1020 | without the edge the stall is reachable for every P >= 2 and K: rank 0 spins in its terminal, every other rank in its forward receive |
| LocalKernels.RecomputeRight | notes/devtools/b4_pad_program.py:437-476 | the stacked snapshots and S_tot that gla_recompute stores are the local states and decays |
| LocalKernels.GradORight | notes/devtools/b4_pad_program.py:499-570 | from those tensors gla_grad_o stores dQ, the intra-chunk halves, the flow, dH and dcprev per chunk, and the gradient of S_recv |
| LocalKernels.GradHRight | notes/devtools/b4_pad_program.py:606-667 | from those tensors gla_grad_h stores dK, dV and dA of gla_chunk_backward |
| FusedGolden.FusedBoundaries | notes/devtools/b4_pad_program.py:980-1020 | the boundary state, dStot and dgam that reach grad_h are those of the whole sequence |
| FusedGolden.JobRight | notes/devtools/b4_pad_program.py:437-570 | the program's own recompute and grad_o meet what the boundary theorem asks of them, for every received boundary |
| FusedGolden.FusedGradients | notes/devtools/b4_pad_program.py:919-1021 | on every interleaving, with or without the ordering edge: it is finite, and if it is through, dQ, dK, dV and dA of every rank are its slice of expected_gla_backward on the flattened sequence; with the edge it always gets there |
| ProbeArms.ArmSteps | notes/devtools/b4_tworing_wait_probe.py:52-176 | what a run of an arm can do next: which dispatches each one waits for, arm by arm, and that a recv waits for its send's notify |
| ProbeArms.ResultsDelivered | notes/devtools/b4_tworing_wait_probe.py:766-788 | what arrives: Rf[1] = 2 X[0]; Rb[0] = 4 X[1] in both and bothdep, 2 X[1] in sendfirst, sendfirstdep and fusedcomm; Rb[1] = 4 X[0] in samedir |
| ProbeArms.ArmFinishes | notes/devtools/b4_tworing_wait_probe.py:299-442 | the arms with a send-to-recv edge, and the same-direction arm: every run has at most 60 steps and extends to a complete one, only complete runs cannot be extended, and then both transfers have delivered those values |
| ProbeArms.SplitOutcome | notes/devtools/b4_tworing_wait_probe.py:52-176 | the arms without the edge have at most 60 steps on every schedule and end complete if and only if not both ranks' recvs were routed ahead of their sends; complete runs have delivered those values |
| ProbeArms.DeadlockReachable | notes/devtools/b4_tworing_wait_probe.py:302-317 | routing what is ready at submission crosses them, and a stuck end state is reached |
| FusedComm.FusedFinishes | notes/devtools/b4_tworing_wait_probe.py:562-698 | with both transfers of a rank in one dispatch, every schedule has at most 48 steps, is never stuck and ends with 2 X[0] and 2 X[1] delivered, although both ranks wait |
| FusedComm.FusedCompletes | notes/devtools/b4_tworing_wait_probe.py:562-698 | every run of whole dispatches extends to a complete one |
| Rendezvous.Matched | gla/implementations/torch_ref.py:311-331 | under synchronous rendezvous every recv meets the send meant for it, although two kinds of messages share a pair of ranks |
| Rendezvous.SomeStep | gla/implementations/torch_ref.py:311-331 | some rank can move until all are through, for every P |
| Rendezvous.NextExactly | gla/implementations/torch_ref.py:196-331 | which sends and recvs meet next and which missing peers are passed, by where the workers stand |
| Rendezvous.EveryRunFinishes | gla/implementations/torch_ref.py:289-339 | every run is finite and extends to a finished one, only finished runs cannot be extended, and they have the received states, dS and dgamma of the AllScan on the shifted dS_recv |
| Rendezvous.WorkerBoundaries | gla/implementations/torch_ref.py:311-331 | with a right local adjoint, the received state and the joined dS and dgamma blocks of every finished worker are the boundary values of the whole sequence |
| Rendezvous.WorkerGradients | gla/implementations/torch_ref.py:333-339 | the gradients of the worker's outputs, S_total and g_total with those weights are its slice of expected_gla_backward |
| WorkerGolden.WorkersRight | gla/implementations/torch_ref.py:289-309 | the workers' own chunk scans and stage-C adjoints meet what the boundary theorem asks of them |
| WorkerGolden.BackwardRuns | gla/implementations/torch_ref.py:289-339 | every run of the P backward processes on the slices of a sequence is finite and extends to a finished one, and then every worker's gradients are its slice of expected_gla_backward |
| WorkerGolden.ForwardRuns | gla/implementations/torch_ref.py:180-236 | every run of the P forward processes is finite and extends to one where all are through, and every worker that has received its boundary reconstructs its slice of expected_gla |
| HeadBlocks.Unblocked | notes/devtools/t5_math_check.py:14-26 | the whole-tile scan gives the outputs and final state of the token recurrence from the boundary |
| HeadBlocks.Blocked | notes/devtools/t5_math_check.py:29-50 | NB head blocks accumulated on a copied state give the same, for every NB dividing dk |
| HeadBlocks.ScanInPlace | notes/devtools/t5_gmstate_probe.py:57-90 | with the state in a scratch tensor, read and overwritten block by block, the outputs and the final scratch are the same |
| KeyRows.MaskedDecay | notes/devtools/a4_keyrow_probe.py:73-80 | the key-row blocks of tril @ log a multiply up to the inclusive decay |
| KeyRows.MaskingDistributes | notes/devtools/a4_keyrow_probe.py:91-99 | masking distributes over the head-block sum |
| KeyRows.OutTile | notes/devtools/a4_keyrow_probe.py:56-102 | one output tile, accumulated over head blocks and key-row blocks from the rebuilt state |
| KeyRows.HostAndScan | notes/devtools/a4_keyrow_probe.py:37-152 | for all NB | dk, NC | C, NV | dv the carry-free kernel on host_side's snapshots has the outputs of golden |
| Stage1.BlockOuter | notes/devtools/a1_stage1_probe.py:53-82 | block-outer, chunk-inner: every row of each of the two snapshot buffers is stored exactly once, and buffers and final state are those of the chunk-outer golden |
| Stage1.Carried | notes/devtools/t5_snapshot_math.py:29-42 | the states that the chunks use, carried from the boundary |
| Stage1.Reconstructed | notes/devtools/t5_snapshot_math.py:45-62 | G_n B + S_n(0) are the same states, and the same final state |

## Left out

- Rounding, tolerances and low-precision studies: the model is over exact reals.
- `exp` and `log` as functions: only the product of gates they stand for.
- `torch.autograd` inside `TorchZeCo.backward` and `_worker_zeco_backward`: not modelled as a tape. `Zeco` runs the explicit `gla_chunk_backward` in its place, which `LocalGradient` shows to be the gradient that autograd is asked for; in `WorkerGolden` the stage-C adjoint is the sum that `gla_chunk_backward` accumulates.
- FusedProgram.FusedSolves: holds for any local kernels, which are parameters there; `FusedGolden.FusedGradients` fills in those of the program, as functions on tensors (`LocalKernels`), which the methods of `KernelBuffers` are shown to store.
- FusedGolden.FusedGradients: P >= 2; the single-rank program has no rings and is `RestructuredRun.Run` with P = 1.
- FusedSchedule.StallReachable: the stalled run is shown to exist as the end of a continuation, not as an explicit list of steps.
- `PyPtoHost.PyPtoAllscanBackward.RunBackward`: the runtime is any interleaving passed in; whether a real runtime finishes is `RingPrograms.BackwardRings`.
- Rendezvous.EveryRunFinishes: the forward boundary exchange is unblocked and the reverse chain has K blocks, as in the ZeCO workers; the K-blocked forward of `_all_scan_p2p` is not modelled separately.
- P = 1 for the standalone ring programs: their kernels would address a missing peer.
- Window reuse between dispatches: counters are zero at the start of a dispatch.
- Runtimes, HCCL, buffer alignment, cache lines, L0 and UB budgets, slot depths, the DSL compiler.
- Multi-head looping, `ZeCoFunction`, `ZeCoModule`: thin wrappers over the single-head operator.
- Benchmarks, plotting, registries, fixtures, device parsing, the stub programs with one ring removed.
