# A Dafny model of the prover's fast forms

The repository is an SP1 zkVM fork whose changes are mostly fast forms that must agree with simple
ones: a recorded GPU constraint program with reused registers, whole-vector FRI folding, shared
inverse denominators, a memory-saving opening, a mixed-height Merkle tree, a pipelined compress tree,
a batch-inverted LogUp trace.  This project models those parts and proves, for all inputs, that the
fast forms mean what the simple ones mean.

The main results:

* **GPU constraint IR.** Register compaction preserves meaning: on every row, under every interpretation of the
  opcodes, the renamed program leaves the same accumulator values; no live register is ever on the
  free list, and the register count never grows (`GpuIr`).  An evaluation is a script of constants,
  loads, arithmetic and assertions in any order.  For every script, compiling it (recording, Montgomery
  form, folding, compaction) gives a program whose decoded accumulator is, on every row and from any
  register contents, the accumulator of the CPU folder that runs the same script (`GpuRecorder`,
  `GpuCompiler`, `GpuScript`).
* **FRI.** The verifier's folded value is the prover's codeword entry in every round; honest proofs of
  low-degree inputs are accepted exactly when the input at height `log_blowup` is absent or all zero,
  because the prover adds that input and the verifier does not (`Fri*`).
* **Two-adic PCS.** The barycentric formula on shared, truncated inverse denominators interpolates
  correctly; the packed reduction of a row is the plain one for every packing width; the prover's
  batched reduced openings are the verifier's column-by-column ones; and
  whatever `open` returns for low-degree extensions, `verify` accepts, including matrices of height
  `blowup` (`Barycentric`, `InverseDenominators`, `PackedReduce`, `Pcs*`).  `open_sequential_cached_split` returns
  what `open` returns and restores every tree's leaves (`PcsSequential`).
* **Merkle tree.** Completeness across padding, injection and packing width; binding by an explicit
  extraction of a collision; and exactly which opened rows are bound (`Merkle*`).
* **Compress tree.** Every interleaving of the pipeline keeps one invariant, never gets stuck, has a bounded
  number of steps, and ends with the root of the tree, which covers every input once (`Compress*`).
* **LogUp.** The traces that meet the constraints are exactly the generated one, so the cumulative sum
  is the signed sum over all rows and local interactions, for every batch size (`LogUp*`).
* **Core verification and shapes.** An accepted shard chain is well formed over the whole run
  (`ShardChain`); the maximal-shape list is an antichain that dominates everything inserted (`Shapes`).

Four properties turned out to hold only under a condition, and the exact condition is proved:

* FRI's verifier skips the input at height `log_blowup` (`verifier.rs:125`), the prover does not
  (`prover.rs:107-119`): `FriGap.AcceptedIff`, with a rejected honest proof in
  `FriGap.HonestButRejected`.  Through the PCS the condition always holds.
* `verify_batch` never compares the proof length with the tree height, so a row is bound exactly when
  the path reaches its matrix's level: `MerkleVerify.CoveredExactly`, `MerkleVerify.NotCovered`, with
  an unbound row in `MerkleVerify.UnboundRow`.
* `verify` pairs the batch openings with the query indices and stops with the shorter list
  (`two_adic_pcs.rs:533-536`), and `verify_query` stops with the shortest of commitments, steps and
  betas (`verifier.rs:119-124`); only the number of FRI queries is compared with `num_queries`.  So all
  queries are checked exactly when there are at least as many openings as queries
  (`PcsGap.CheckedExactly`, with the empty list in `PcsGap.NothingOpened`), and all rounds of a query
  exactly when it has a step for every commitment (`FriGap.RoundRead`, `FriGap.RoundUnread`, with the
  empty query in `FriGap.EmptyQuery`).
* The compressed root says that it is complete for every run except one of exactly two shards without
  deferred proofs: `CompressInputs.RootComplete`.

Shape comparison leaves one more gap: a shape that is another one with some chips left out, at equal heights,
is incomparable to it, although the larger one covers it (`Shapes.CoveredButIncomparable`).

## Conventions

The prover's field and its extension are library code.  Statements about them are made for every field, given
as a record of operations with laws (`Fields`), and every field with two-adic generators (`TwoAdic`); base-field
values are read as elements of the extension.  Hash, compression and the Fiat-Shamir sponge are arbitrary functions.
A failed assertion or a panic of the source is a `requires` where it is the caller's duty and a `None`, `Err` or
`Panicked` result where the source reaches it from its own data.  All inductions are written out; automatic
induction is switched off on every lemma.  Ghost predicates such as `AtIndex` are always true and only mark where a
quantified fact is used.

## Model

| member | source | states |
|---|---|---|
| GpuIr.FindLastUse | crates/stark/src/gpu_ir.rs:600-622 | the scan's table holds, for every register, the index of the last instruction that reads it, zero if none does, and the program's length for the accumulator registers |
| GpuIr.AssignRegisters | crates/stark/src/gpu_ir.rs:624-671 | the allocation loop computes the specification run: each instruction takes a register for its destination, then frees the sources it reads last, each once |
| GpuIr.AssignmentSafe | crates/stark/src/gpu_ir.rs:624-671 | for every SSA program, after every instruction the free list holds no register twice and none that is live, distinct live values have distinct registers, and the register count never exceeds the instruction count |
| GpuIr.RenamingPreserves | crates/stark/src/gpu_ir.rs:673-696 | executing the renamed program keeps, at every instruction, the value of every live register of the original, under every interpretation of the opcodes |
| GpuIr.ConstraintProgram.CompactRegisters | crates/stark/src/gpu_ir.rs:594-696 | the object's words, register count and accumulator registers become a compaction of the old ones, of the same length; for an SSA program all ids are below the new count, which does not grow |
| GpuIr.CompactionPreserves | crates/stark/src/gpu_ir.rs:594-696 | on every row, the compacted program leaves the four accumulator values of the original |
| GpuRecorder.MontyRoundTrip | crates/stark/src/gpu_ir.rs:126-129 | decoding a Montgomery-form constant gives back its value modulo P |
| GpuRecorder.MontyHomomorphism | crates/stark/src/gpu_ir.rs:45-68 | each opcode on Montgomery-form words decodes to the same operation on field values |
| GpuRecorder.DecodedValue | crates/stark/src/gpu_ir.rs:45-68 | decoding any register after a Montgomery-form run gives the field value of its expression |
| GpuRecorder.ExecIsValue | crates/stark/src/gpu_ir.rs:93-106 | in an SSA program, running all instructions leaves in each register the value of the expression that defines it |
| GpuRecorder.IrContext.EmitConst | crates/stark/src/gpu_ir.rs:131-138 | appends one instruction, keeps SSA form and every earlier value, and returns a register with the given word |
| GpuRecorder.IrContext.EmitBinop | crates/stark/src/gpu_ir.rs:140-146 | appends one instruction whose value is the operation on its operands' values; SSA form and earlier values are kept |
| GpuRecorder.IrContext.EmitUnop | crates/stark/src/gpu_ir.rs:148-155 | appends one negation; SSA form and earlier values are kept |
| GpuRecorder.IrContext.EmitLoad | crates/stark/src/gpu_ir.rs:157-164 | appends one column load; SSA form and earlier values are kept |
| GpuCompiler.ProverConstraintFolder.AssertZero | crates/stark/src/folder.rs:78-82 | the CPU accumulator becomes accumulator * alpha + x |
| GpuCompiler.ProverConstraintFolder.AssertZeroExt | crates/stark/src/folder.rs:92-99 | the same with an extension value |
| GpuCompiler.ConstraintCompiler.AssertZero | crates/stark/src/gpu_ir.rs:487-492 | recording a base constraint makes the recorded accumulator evaluate, on every row, to the CPU fold of its old value |
| GpuCompiler.ConstraintCompiler.AssertZeroExt | crates/stark/src/gpu_ir.rs:502-508 | the same for an extension constraint |
| GpuCompiler.EmitExtMul | crates/stark/src/gpu_ir.rs:487-492 | the instructions recorded for an extension product evaluate to that product on every row |
| GpuCompiler.CompiledMeaning | crates/stark/src/gpu_ir.rs:805-820 | running any compaction of a recording on any row and decoding its accumulator gives the field value of the recorded accumulator |
| GpuCompiler.Finish | crates/stark/src/gpu_ir.rs:805-820 | finishing a recording yields a valid program, of no more registers than instructions, that decodes to the recorded accumulator |
| GpuScript.RecordScript | crates/stark/src/gpu_ir.rs:793-803 | running any script on the recording builder keeps SSA form, leaves in every handle its field value and in the accumulator the fold of everything asserted, from whatever the recording stood for before |
| GpuScript.FoldOnCpu | crates/stark/src/folder.rs:78-99 | running the same script on field values with the CPU folder computes that evaluation's accumulator |
| GpuScript.CompileConstraints | crates/stark/src/gpu_ir.rs:714-820 | for every script and row, the compiled and compacted program decodes to the accumulator of the CPU folder, from any register contents |
| Bits.BitRevInvolution | crates/p3-fri/src/fold_even_odd.rs:36-41 | bit reversal undoes itself |
| Bits.BitRevPad | crates/p3-fri/src/two_adic_pcs.rs:1236-1258 | reversing in a longer width scales the reversal: why bit-reversed vectors may be truncated |
| FriFold.FoldAgrees | crates/p3-fri/src/verifier.rs:138-152 | the prover's fold at index / 2 is the verifier's interpolation of the pair, whichever of its two positions the index is |
| FriFold.FoldPairIsInterpolation | crates/p3-fri/src/fold_even_odd.rs:19-60 | the half-sum and twiddle form of one pair is the line through both points evaluated at beta |
| FriFold.FoldOfCodeword | crates/p3-fri/src/fold_even_odd.rs:19-60 | folding the bit-reversed evaluations of p gives those of p_even + beta * p_odd |
| Fri.CommitPhase | crates/p3-fri/src/prover.rs:91-135 | commitments, committed pairs and transcript are those of the round-by-round fold; it succeeds exactly when the last vector is `blowup` copies of one value |
| Fri.RoundsHonest | crates/p3-fri/src/prover.rs:103-120 | every round of the fold commits to the pairs of its codeword, draws beta after them and adds the input of the new height |
| Fri.AnswerAt | crates/p3-fri/src/prover.rs:55-88 | the answer for each round is the sibling entry and the opening of the pair that holds index >> i |
| Fri.Prove | crates/p3-fri/src/prover.rs:16-52 | proof, query indices and final transcript are those of the honest run; none exists without an input or when the final check fails |
| Fri.VerifyShapeAndSampleChallenges | crates/p3-fri/src/verifier.rs:27-66 | the challenges or the error that the transcript determines, in the order of the checks |
| Fri.VerifyQuery | crates/p3-fri/src/verifier.rs:102-161 | folds exactly as many rounds as there are steps, betas and commitments, and fails with the first rejected opening |
| Fri.VerifyChallenges | crates/p3-fri/src/verifier.rs:68-100 | accepts exactly when every query is accepted, otherwise returns the first failure |
| FriCompleteness.QueryTracksProver | crates/p3-fri/src/verifier.rs:102-161 | after i rounds of an honest query the verifier stands at index >> i and its folded value plus the opening of that height is the prover's codeword entry |
| FriCompleteness.QueryMeetsFinal | crates/p3-fri/src/verifier.rs:119-160 | every opening of an honest query is accepted, and the result equals the final constant exactly when the opening at height log_blowup is zero |
| FriCompleteness.FoldingKeepsLowDegree | crates/p3-fri/src/prover.rs:103-120 | after i rounds the codeword belongs to a polynomial with at most 2^(height - log_blowup) coefficients |
| FriCompleteness.CommitPhaseEndsConstant | crates/p3-fri/src/prover.rs:122-128 | for low-degree inputs the last vector has length `blowup` and is constant: the assertions never fire |
| FriCompleteness.SameChallenges | crates/p3-fri/src/verifier.rs:27-66 | prover and verifier draw the same betas and indices |
| FriCompleteness.HonestQueryVerdict | crates/p3-fri/src/verifier.rs:68-100 | an honest query is accepted, or fails with a final-polynomial mismatch exactly when the opening at log_blowup is not zero |
| FriCompleteness.FriComplete | crates/p3-fri/src/prover.rs:16-52 | for low-degree inputs an honest proof exists, the challenges agree, and each query is accepted exactly when its opening at log_blowup vanishes |
| FriGap.VerdictIs | crates/p3-fri/src/verifier.rs:68-161 | the verdict on every query of an honest proof of low-degree inputs: accepted when the input at height log_blowup is absent or all zero, otherwise a final-polynomial mismatch |
| FriGap.AcceptedIff | crates/p3-fri/src/verifier.rs:119-136 | with at least one query, all queries are accepted exactly when the input at height log_blowup is absent or all zero |
| FriGap.HonestButRejected | crates/p3-fri/src/prover.rs:107-119 | a concrete honest proof, of a nonzero constant at height log_blowup, whose query is rejected |
| FriGap.RoundRead | crates/p3-fri/src/verifier.rs:119-152 | an accepted query has verified the opening of every round up to the shortest of commitments, steps and betas |
| FriGap.RoundUnread | crates/p3-fri/src/verifier.rs:119-152 | a commitment beyond a query's last step does not affect the query's verdict |
| FriGap.EmptyQuery | crates/p3-fri/src/verifier.rs:93-95 | a query without steps is accepted exactly when the final value is zero |
| Barycentric.BarycentricCorrect | crates/p3-fri/src/two_adic_pcs.rs:1389-1415 | the formula returns p(z) for every polynomial with at most 2^k coefficients and every z off the coset |
| Barycentric.InterpolationCorrect | crates/p3-fri/src/two_adic_pcs.rs:1389-1415 | every column of the matrix is interpolated to its polynomial's value at z |
| InverseDenominators.RecordTops | crates/p3-fri/src/two_adic_pcs.rs:1222-1234 | the nested loops record the log heights that the specification folds |
| InverseDenominators.RoundsGrow | crates/p3-fri/src/two_adic_pcs.rs:1222-1234 | every point of every matrix is recorded with at least that matrix's log height |
| InverseDenominators.PointTruncates | crates/p3-fri/src/two_adic_pcs.rs:1236-1258 | the bit-reversed domain of order 2^k is the beginning of the one of order 2^m |
| InverseDenominators.TruncationServes | crates/p3-fri/src/two_adic_pcs.rs:1245-1259 | the first 2^k entries of the vector for a larger domain are the inverses over the coset of order 2^k |
| InverseDenominators.ComputeFromDims | crates/p3-fri/src/two_adic_pcs.rs:1217-1265 | the vectors cut from one large coset are, point by point, the inverses over each point's own coset |
| Pcs.ComputeInverseDenominators | crates/p3-fri/src/two_adic_pcs.rs:1268-1316 | the matrix-based form computes what the dimension-based form computes from the matrices' dimensions |
| InverseDenominators.DenomsServe | crates/p3-fri/src/two_adic_pcs.rs:1217-1316 | the point of every opening is present and its vector covers the opened matrix |
| PackedReduce.NewReducer | crates/p3-fri/src/two_adic_pcs.rs:1326-1347 | enough powers of the base for the given width, packed chunk by chunk and coefficient by coefficient |
| PackedReduce.LanesHoldSum | crates/p3-fri/src/two_adic_pcs.rs:1355-1364 | for every packing width the lanes together hold the sum over the whole chunks |
| PackedReduce.ReduceBase | crates/p3-fri/src/two_adic_pcs.rs:1355-1371 | for every packing width, chunks in lanes plus the suffix give the plain sum of powers times values |
| PcsReduce.ReduceOpenings | crates/p3-fri/src/two_adic_pcs.rs:415-459 | the reduction loops compute the fold over rounds, matrices, points and rows |
| PcsReduce.ColumnsBatched | crates/p3-fri/src/two_adic_pcs.rs:575-581 | the column-by-column sum is the alpha offset times the inverse denominator times row sum minus opened sum |
| PcsReduce.RoundsAgree | crates/p3-fri/src/two_adic_pcs.rs:533-587 | at every height and query index the verifier's `ro` is the prover's `reduced_openings` entry, and its power of alpha the prover's offset |
| PcsLowDegree.QuotientDivides | crates/p3-fri/src/two_adic_pcs.rs:283-296 | p(X) - p(z) is X - z times the quotient polynomial |
| PcsLowDegree.PointKeepsCodeword | crates/p3-fri/src/two_adic_pcs.rs:435-457 | adding one point's contribution to a codeword gives the codeword of an explicit polynomial |
| PcsLowDegree.RoundsLow | crates/p3-fri/src/two_adic_pcs.rs:415-459 | the reduced opening of height h is the codeword of a polynomial with fewer than 2^(h - log_blowup) coefficients, hence zero at log_blowup |
| Pcs.TallestReduced | crates/p3-fri/src/two_adic_pcs.rs:335-336 | the tallest reduced opening has the height of the tallest matrix |
| Pcs.Open | crates/p3-fri/src/two_adic_pcs.rs:267-490 | values, proof and transcript are those of the specification of an opening |
| PcsVerify.ReduceQuery | crates/p3-fri/src/two_adic_pcs.rs:533-587 | the reduced openings of one query, or its first error |
| PcsVerify.Verify | crates/p3-fri/src/two_adic_pcs.rs:492-597 | returns success or the first error, in the order of the checks; panics of a missing generator, a division by zero or a failed subtraction included |
| PcsVerify.OutcomeAccepted | crates/p3-fri/src/two_adic_pcs.rs:492-597 | that outcome is success exactly when the challenges are valid, every paired batch opening verifies, all heights are in the field, no division is by zero and every paired FRI query is accepted |
| PcsGap.CheckedExactly | crates/p3-fri/src/two_adic_pcs.rs:533-586 | a proof whose challenges can be sampled is accepted exactly when each of its first min(openings, num_queries) queries passes, which are all queries exactly when there are that many openings |
| PcsGap.QueryUnread | crates/p3-fri/src/two_adic_pcs.rs:533-536 | a FRI query without batch openings does not affect the verdict |
| PcsGap.NothingOpened | crates/p3-fri/src/two_adic_pcs.rs:533-536 | a proof without batch openings is accepted exactly when its challenges can be sampled, whatever is claimed |
| PcsCompleteness.OpenedCorrectly | crates/p3-fri/src/two_adic_pcs.rs:375-391 | the values reported at a point are the values of the column polynomials, from the low coset and the negated, bit-reversed shared denominators |
| PcsCompleteness.HonestDivisible | crates/p3-fri/src/two_adic_pcs.rs:574-581 | for points off the domains the verifier never divides by zero |
| PcsCompleteness.QueryPasses | crates/p3-fri/src/two_adic_pcs.rs:533-587 | on an honest query all batch openings verify and the reduction runs over the committed rows |
| PcsCompleteness.HonestQuery | crates/p3-fri/src/two_adic_pcs.rs:533-587 | the verifier's reduced openings of an honest query are the prover's, and zero at log_blowup |
| PcsCompleteness.PcsComplete | crates/p3-fri/src/two_adic_pcs.rs:267-597 | for any rounds of low-degree extensions and points off their domains, `open` succeeds with the right values and `verify` accepts |
| PcsSequential.Restore | crates/p3-fri/src/two_adic_pcs.rs:1007-1010 | saved leaves are back in their tree and nothing else changed |
| PcsSequential.TakeBack | crates/p3-fri/src/two_adic_pcs.rs:1040-1042 | leaves that had been saved are saved again |
| PcsSequential.ReadDims | crates/p3-fri/src/two_adic_pcs.rs:917-958 | dimensions and tallest height of all rounds, with every tree left as it was |
| PcsSequential.OpenSequentialCachedSplit | crates/p3-fri/src/two_adic_pcs.rs:888-1163 | returns what `open` returns on the preprocessed round followed by the others, leaves the challenger in the same state, and every tree with its own leaves |
| PcsSequential.SplitOpeningAccepted | crates/p3-fri/src/two_adic_pcs.rs:888-1163 | over Merkle trees that opening exists and is accepted, with no assumption left about the commitments |
| Mmcs.InRangePow2 | crates/p3-merkle-tree/src/mmcs.rs:74-83 | for power-of-two heights an index is in range for every matrix exactly when it is below the tallest height |
| MerkleSchedule.OrderMembers | crates/p3-merkle-tree/src/merkle_tree.rs:67-70 | in the tallest-first order the matrices of one padded height keep their original order |
| MerkleSchedule.ScheduleOk | crates/p3-merkle-tree/src/mmcs.rs:116-160 | at every level the verifier's peekable iterator yields exactly the matrices of that padded height |
| MerkleTree.FirstDigestLayer | crates/p3-merkle-tree/src/merkle_tree.rs:151-194 | for every packing width, the digest of each row of the tallest matrices, then default digests |
| MerkleTree.Compress | crates/p3-merkle-tree/src/merkle_tree.rs:268-309 | for every packing width, the compression of each pair |
| MerkleTree.CompressAndInject | crates/p3-merkle-tree/src/merkle_tree.rs:198-265 | for every packing width, each pair compressed and mixed with its injected row, or with the default digest beyond the last row |
| MerkleTree.BuildLayers | crates/p3-merkle-tree/src/merkle_tree.rs:40-99 | the layers hold, up to the single root, the digests that the tree prescribes |
| MerkleTree.FieldMerkleTree.constructor | crates/p3-merkle-tree/src/merkle_tree.rs:40-109 | the tree over the given matrices, with its leaves |
| MerkleTree.FieldMerkleTree.RootIs | crates/p3-merkle-tree/src/merkle_tree.rs:122-127 | the root of the built layers is the tree's commitment |
| MerkleTree.FieldMerkleTree.TakeLeaves | crates/p3-merkle-tree/src/merkle_tree.rs:131-133 | returns the leaves and leaves none; digests and dimensions are kept |
| MerkleTree.FieldMerkleTree.RestoreLeaves | crates/p3-merkle-tree/src/merkle_tree.rs:136-138 | the leaves are the given ones; digests and dimensions are kept |
| MerkleTree.FieldMerkleTree.MaxHeightKept | crates/p3-merkle-tree/src/mmcs.rs:99-106 | the maximal height is the same before and after the leaves are taken |
| MerkleTree.FieldMerkleTree.OpenBatch | crates/p3-merkle-tree/src/mmcs.rs:66-90 | the rows at the reduced indices and the sibling path of the tree |
| MerkleTree.FieldMerkleTree.OpenBatchWithExternalLeaves | crates/p3-merkle-tree/src/mmcs.rs:186-214 | the same opening from a tree whose leaves were taken, given those leaves |
| MerkleVerify.VerifyBatch | crates/p3-merkle-tree/src/mmcs.rs:108-168 | accepts exactly when the digest recomputed along the path is the commitment |
| MerkleVerify.GroupsAgree | crates/p3-merkle-tree/src/mmcs.rs:116-160 | prover and verifier take the same matrices at every layer |
| MerkleVerify.ClimbsTree | crates/p3-merkle-tree/src/mmcs.rs:137-161 | along an honest path the recomputed digest is the tree's digest at index >> k |
| MerkleVerify.MerkleComplete | crates/p3-merkle-tree/src/mmcs.rs:66-168 | an honest opening at any index in range is accepted |
| MerkleVerify.TreeSchemeComplete | crates/p3-merkle-tree/src/mmcs.rs:57-168 | the tree is a complete commitment scheme, as FRI and the PCS require |
| MerkleVerify.MerkleBinding | crates/p3-merkle-tree/src/mmcs.rs:108-168 | two accepted openings with equal shapes have equal paths and equal hashed rows, or the explicit walk finds two colliding inputs |
| MerkleVerify.CoveredExactly | crates/p3-merkle-tree/src/mmcs.rs:137-160 | a row is hashed exactly when the path is long enough to reach its matrix's level |
| MerkleVerify.NotCovered | crates/p3-merkle-tree/src/mmcs.rs:137-168 | a row that is not hashed does not affect the verdict |
| MerkleVerify.UnboundRow | crates/p3-merkle-tree/src/mmcs.rs:137-168 | for heights 2 and 1 and an empty path, whatever the hash, every second row is accepted under one commitment without a collision |
| CompressInputs.GetDeferredInputs | crates/prover/src/lib.rs:1219-1255 | each deferred batch starts from the digest of all deferred proofs before it |
| CompressInputs.GetFirstLayerInputs | crates/prover/src/lib.rs:1259-1282 | the deferred batches, then the core batches, with their flags and digests |
| CompressInputs.FirstLayerKeepsAll | crates/prover/src/lib.rs:1193-1282 | every shard proof and deferred proof is in the first layer once, in order |
| CompressInputs.RootComplete | crates/prover/src/lib.rs:1269-1276 | the final proof says it is complete except for two shards without deferred proofs |
| CompressTree.ExpectedSizes | crates/prover/src/lib.rs:425-442 | the tree height and the number of proofs at every height |
| CompressTree.TotalBound | crates/prover/src/lib.rs:589-593 | the whole tree makes between n and 2n - 1 proofs |
| CompressTree.LayerCovers | crates/prover/src/lib.rs:726-825 | every layer covers every input exactly once, in order |
| CompressTree.RootCovers | crates/prover/src/lib.rs:726-825 | so does the root, which is a complete merge of two or three proofs when there are two inputs or more |
| CompressInvariant.TakeOk | crates/core/machine/src/utils/concurrency.rs:15-28 | taking an item keeps: the busy workers of a pool hold exactly the items taken and not yet sent, each once, and one worker at most is between its send and its turn advance |
| CompressInvariant.PostOk | crates/prover/src/lib.rs:700-711 | the worker whose turn it is sends the next item in order, and the pool invariant is kept |
| CompressInvariant.DeliverOk | crates/prover/src/lib.rs:775-824 | one iteration of the reducer moves to the next proof or the next layer, emits the batch the tree prescribes, and never sees two heights in one batch |
| CompressInvariant.ReducerBounds | crates/prover/src/lib.rs:775-824 | the reducer never sends more than the tree holds, stays ahead of what it receives, and when done has received every lower layer in full |
| CompressRuns.NeverClosedEarly | crates/prover/src/lib.rs:821-831 | provers stop after tracers and tracers after the reducer; the reducer's closed-channel exit is never taken |
| CompressRuns.StepKeeps | crates/prover/src/lib.rs:449-840 | every step of every thread keeps the invariant |
| CompressRuns.FinishOk | crates/prover/src/lib.rs:828-840 | what the main thread takes is the root, and all channels are empty |
| CompressRuns.ReachableOk | crates/prover/src/lib.rs:449-840 | the invariant holds in every state of every run |
| CompressProgress.ProofsHaveRoom | crates/prover/src/lib.rs:589-593 | the proofs channel of capacity 2n never fills |
| CompressProgress.Progress | crates/prover/src/lib.rs:449-840 | no reachable state before the result is stuck |
| CompressProgress.RunBound | crates/prover/src/lib.rs:449-840 | the number of steps of any run is bounded |
| CompressProgress.CompressCorrect | crates/prover/src/lib.rs:415-840 | every run is bounded, can always go on until the result, and ends with the root covering every input once |
| LogUpScopes.ScopedInteractions | crates/stark/src/permutation.rs:97-127 | sorting and chunking map each scope that occurs to its interactions, in the chip's order |
| LogUpScopes.GroupsPartition | crates/stark/src/permutation.rs:97-127 | the two groups together have every interaction once |
| LogUpScopes.LocalLookups | crates/stark/src/permutation.rs:130-143 | the prescoped forms are given the local sends, then the local receives, in the chip's order |
| LogUp.SumByOneInversion | crates/stark/src/permutation.rs:70-93 | Montgomery's trick computes the sum of multiplicity over fingerprint of a batch |
| LogUp.BlockTerms | crates/stark/src/permutation.rs:244-325 | the three cases of the block form compute the product and the common numerator |
| LogUp.PrefixSuffixTerms | crates/stark/src/permutation.rs:495-543 | so do the fast paths and the prefix and suffix products of the constraints |
| LogUp.EntryIsSum | crates/stark/src/permutation.rs:545-547 | product times entry equals numerator exactly when the entry is the sum of the fractions |
| LogUpTrace.PopulateRow | crates/stark/src/permutation.rs:29-94 | every entry of the row is the sum of its batch |
| LogUpTrace.GenerateTrace | crates/stark/src/permutation.rs:152-363 | the block-inverted rows are those of the per-row form, closed by running sums, and the returned sum is the total |
| LogUpTrace.RowSum | crates/stark/src/permutation.rs:346-349 | the entries of a row sum to the sum over its interactions, for every batch size |
| LogUpConstraints.WidthIs | crates/stark/src/permutation.rs:18-23 | the number of batches plus one is the computed trace width |
| LogUpConstraints.EvalRow | crates/stark/src/permutation.rs:394-584 | accepts exactly when every entry, first-row, transition and last-row equation of the row holds and, for a chip of global scope, the last fourteen columns of the last row are its global sum |
| LogUpConstraints.LogUpExact | crates/stark/src/permutation.rs:469-568 | with nonzero fingerprints the traces and sums that meet all constraints are exactly the generated ones |
| LogUpConstraints.NoInteractions | crates/stark/src/permutation.rs:437-440 | without interactions the constraints accept every sum |
| LogUpConstraints.SumIsTotal | crates/stark/src/verifier.rs:109-118 | with the verifier's zero check the accepted sum is the signed sum over all rows and interactions |
| LogUpConstraints.SumIgnoresBatch | crates/stark/src/permutation.rs:469-568 | accepted sums for two batch sizes are equal |
| ShardChain.Verify | crates/prover/src/verify.rs:56-291 | accepts exactly when every scan passes and the machine verifier does; the first missing CPU, the shard limit and the machine's failure are reported as such |
| ShardChain.NumbersAreExact | crates/prover/src/verify.rs:82-122 | shard i is numbered i + 1 and the k-th CPU shard has execution shard k, without wrapping |
| ShardChain.NumbersIdentify | crates/prover/src/verify.rs:82-122 | numbers increase strictly along the run |
| ShardChain.HaltedForGood | crates/prover/src/verify.rs:124-163 | after the program counter reaches zero it stays there and no CPU shard follows |
| ShardChain.PcChain | crates/prover/src/verify.rs:124-163 | between CPU shards the program counter does not move, from the verifying key's start on |
| ShardChain.LastCpuHalts | crates/prover/src/verify.rs:124-163 | a CPU shard leaves the program counter at zero exactly when it is the last CPU shard |
| ShardChain.AddressesHold | crates/prover/src/verify.rs:178-222 | address bits change only in shards that initialise or finalise memory |
| ShardChain.DigestsHold | crates/prover/src/verify.rs:224-278 | a digest changes only in CPU shards and never once it is nonzero |
| Shapes.CompareLess | crates/stark/src/shape/mod.rs:140-191 | less means covered with some chip strictly lower; greater is its converse; equal is equality |
| Shapes.BelowTransitive | crates/stark/src/shape/mod.rs:140-191 | the strict order is transitive |
| Shapes.MaximalShapes.Insert | crates/prover/scripts/find_maximal_shapes.rs:65-82 | the list is unchanged if a member is at least as large, otherwise it is the members not exceeded, in order, and the new shape |
| Shapes.MaximalSet | crates/prover/scripts/find_maximal_shapes.rs:65-82 | after any insertions the list is an antichain of inserted shapes with every inserted shape below or equal to a member |
| Shapes.CoveredButIncomparable | crates/stark/src/shape/mod.rs:140-191 | a different, covered shape is not below its cover exactly when it is a restriction of it at equal heights |
| Shapes.RedundantMember | crates/prover/scripts/find_maximal_shapes.rs:65-82 | a list that keeps a shape another member covers |

## Left out

- GPU dispatch, unsafe transmutes and the shader kernel; the kernel is represented by the interpreter of the IR, whose negation is reduced modulo P.
- The accumulator's extension operators are recorded coefficient by coefficient in one fixed order, not in the library's own; a script may use any order.  `next_reg` overflow of 32 bits is not modelled, nor is an evaluation that compares handles.
- Extension-field, packed-lane, DFT and low-degree-extension arithmetic, and Poseidon2: library code; `commit` enters as the statement that matrices are low-degree extensions.
- Batch inversion is modelled entry by entry; the reduction loops use the plain sum that `PackedReduce.ReduceBase` equals.
- `open_sequential_cached`: the split form without its preprocessed round; it would only repeat the phases proved here.
- PcsVerify.Verify: panics are one `Panicked` result; a field of two-adicity 32 or more, for which the arrays of 32 heights are too short, panics at the first query rather than at the first index out of range, and what sampling more bits than the field has does is not modelled.
- Proof-of-work grinding, query counts and soundness-error probabilities; the sponge is an arbitrary function whose grinding succeeds.
- The compress pipeline's verifying keys, key cache, trace generation, proving and recursion programs: a worker's computation is one step and a proof is what it was made from; mutexes around channel ends are not separate steps.
- CompressProgress.CompressCorrect: for at least one input, one trace worker and one prover; thread panics are not modelled.
- Witness contents other than batches, flags and deferred digests in the first-layer inputs.
- How a chip accumulates its global sum; column expressions are arbitrary functions of a row.
- ShardChain.Verify: the messages of invalid public values and the machine verifier itself are not modelled.
- Downloading programs, executing them and saving shapes around `insert`.
- Septic-curve arithmetic, recursion circuits, wrapping proofs, SDK, CLI and container client.
