# Einsums examples and tools: a verified model

Einsums ships examples that rewrite tensor contractions into cheaper programs, and small tools that keep
state. The examples promise that each rewrite computes what the plain equations say: a captured in-place
coupled-cluster iteration, a triples correction in four spellings, fused and unfused Fock loops, pooled and
per-pair MP2, a particle ladder that never forms its largest tensor, and a shared transformation tree. The
tools promise conservation: billed time, profile totals, indices, tiles, text and messages. This project models
both in Dafny and proves those promises for all inputs, all sizes and all runs.

## How the model is built

A tensor is a function from its multi-index to a real element (`Einsum.Val`), so a scratch buffer is a field that a
method overwrites, and its stale contents are arbitrary. The operations that the programs call - einsum, permute,
axpby, direct division, dot - have the element-wise meaning that those programs use (`Einsum.Ein`, `Permute`,
`Axpby`, `DirectDivision`, `Dot`); index labels are single characters, and the labels that einsum sums over are
written beside each specification. `Sums` and `Contractions` are the lemma library under all of it: linearity,
exchange of summations, the six-fold count of ordered triples, the order of summed labels, stored intermediates, and
contraction of slices.

The pure side restates the oracle's equations one for one: `Ccsd` (examples/toy/ccsd_t_spinorbital_toy.py:143-182),
`Triples` (lines 185-197), `SpinOrbital` (lines 101-132), `DfLadder.Direct`
(examples/psi4-bridge/ccsd_rhf_oracle.py:130) and the direct sums of `QuarterTransform`
(examples/psi4-bridge/cc_integrals_incore.py:152-157). The programs are classes whose methods follow the captured
operations in order: `CcsdGraph.Body`, `TriplesGraph.WholeTensor`, `TriplesBlocked.Blocked`, `DfLadder.Ladder`,
`QuarterTransform.Transform`, `DfMp2.Pooled` and `DfMp2.Eager`; `FockBuild` works on flat arrays with the source's
offsets, and its parallel loop is a machine in which any thread may write its next element at any time. Each program
is proved against its pure side, and `ToyScript` puts the toy program together: iterations, then the correction.

What the pure side computes is said once more without label strings and without intermediates. `CcsdEquations` writes the
singles and doubles equations of spin-orbital CCSD out as nested sums over `g`, `t1` and `t2`; `EinsumSums` turns
einsums into such sums, `BoxSums` moves factors through them, and `CcsdElements`, `CcsdLadders`, `CcsdSingles` and
`CcsdDoubles` prove that the factored residuals are the written-out ones. `CcsdEnergy`, `TriplesEquations`, `DfMp2.Mp2`,
`DfLadder.LadderIs` and `QuarterSlices` do the same for the energies, the triples, MP2, the ladder and the transform;
`TwoElectrons`, `TriplesEquations.CorrectionInClosedForm`, `DfMp2.OnePair` and `FockBuild.FockOfOne` are the smallest
systems in closed form.

`DfMp2.Pooled` claims identical bits for two orders of operations, so its arithmetic is uninterpreted: nothing may be
assumed of a kernel except that equal arguments give equal results.

`Diis` is the accelerator that the closed-shell example writes out; its linear solver is a parameter that either
returns an exact solution or fails.

The tools are `Billing`, `Tiles`, `ProfileTree`, `BottomUp`, `CmakeCleanup` with `CmakeIndent`, `CmakeProtection`,
`CmakeBlocks`, `CmakeStrings` over `CmakeScanner`, and `CmakeReclean`, `IndexIterator`, `RobustStats`, and `LineReader`
over `Text`. `ProfileExample` shows both profile views of one small tree in numbers.
Clocks, sockets, message parsing and Unicode character classes are parameters.

## Where the code falls short of its description

- pyeinsums/utils.py:149 says that a reversed iterator goes from the current index back to the beginning. After a
  complete run the current index is one past the end, and the reversed iterator yields nothing; it walks back exactly
  when the position is in range (`IndexIterator.TensorIndices.Drain`, `FullRun`).
- devtools/benchmarks/runner.py:232-241 skips lines that are not messages, but a line whose parsed value has no `get`
  raises past the inner handler and ends the collection. Results are complete exactly when no kept message follows
  such a line (`LineReader.CompleteExactlyWhen`).
- examples/psi4-bridge/df_mp2_graph.py:212 cannot run when there are no pairs, because the chunk size is then zero;
  the per-pair form can (`DfMp2.BothForms`).
- devtools/profiling/profile_viewer.py:2099 does not count callers with an empty name, which is what `parse_node` gives
  a node without one. A callee with positive times is its callers plus its root occurrences exactly when it never occurs
  under such a node (`BottomUp.NeverUnderNameless`, `BottomUp.OrphanFallsShort`).
- devtools/profiling/profile_viewer.py:412-422 connects without clearing the line buffer, so a client used for a second
  connection reads what the first left unfinished in front of the second's first line (`LineReader.Reader.TwoConnections`,
  `JoinsConnections`). The viewer's own loop drops the client when its connection ends.
- libs/create_module_skeleton/cleanup_cmake.py:31-36 reads the first word before stripping the line, so a keyword counts
  exactly when it is not indented (`CmakeIndent.FirstColumnCounts`, `CmakeIndent.IndentedEndif`).
- For the same reason cleaning a cleaned text can change it: nested blocks lose their inner indent, and a text without a
  final newline gains a blank line (`CmakeReclean.NestedBlocksFlatten`). When it does not is `CmakeReclean.CleanupAgain`
  for every text, and in plain terms `CmakeReclean.FlatTextAgain`.
- Line 21 of the same file strips white space even after an open quote or in a comment
  (`CmakeProtection.OpenQuoteLosesBlank`); nothing inside comments and inside quotes that open on the same line is lost
  exactly when no such white space trails (`CmakeProtection.CleanupKeepsProtected`). The check at lines 94-96 never adds
  anything (`CmakeCleanup.BlankLinesStandAlone`).
- Lines 71-72 of the same file start every line outside quotes, so a string that spans lines can lose blanks and blank
  lines, and be indented anew (`CmakeStrings.SpanningTextLosesBlank`). Strings and comments stay as they are exactly when
  every line is intact, read with the string that earlier lines leave open (`CmakeStrings.CleanupKeepsStrings`; for the
  end of the text `CleanupKeepsClosedStrings` and `CleanupKeepsOpenStrings`). If every line closes its quotes, and no
  comment sign stands in a string, this is again that nothing guarded trails (`CmakeStrings.ClosedLinesIntact`).

## Model

| member | source | states |
|---|---|---|
| ToyScript.CorrectEnergies | examples/toy/ccsd_t_spinorbital_toy.py:516-531 | From any raw integrals, any orbital energies and any number of plain iterations, the captured CCSD program followed by the triples program in all four spellings (whole or blocked, naive or folded) returns exactly the oracle's naive correction of the oracle's amplitudes, and this is the sum over i < j < k and a < b < c of w (w + v) over the energies, with w and v written out |
| ToyScript.Iterate | examples/toy/ccsd_t_spinorbital_toy.py:249-339 | Any number of plain replays of the captured body from the MP2 start hold, element by element, the oracle's iterate of the same number, its energy, which is the sum over i < j and a < b of the integrals times the antisymmetrized amplitudes, and doubles antisymmetric in both pairs |
| ToyScript.IteratesSolve | examples/toy/ccsd_t_spinorbital_toy.py:145-178 | The oracle's iterates, with no label string and no intermediate in between: from the MP2 start, the energies times each next iterate are the right-hand sides of the written-out CCSD equations at the one before, and every iterate is antisymmetric in both pairs |
| CcsdDoubles.IterationSolves | examples/toy/ccsd_t_spinorbital_toy.py:152-177 | One iteration from any amplitudes, for every size: the energies times the new singles and doubles are the written-out singles and doubles equations, nested sums of products of amplitudes and integrals |
| CcsdSingles.SinglesResidualIs | examples/toy/ccsd_t_spinorbital_toy.py:152-166 | The factored singles residual is the written-out one, with the half products of tau-tilde in Fae and Fmi together one |
| CcsdDoubles.DoublesResidualIs | examples/toy/ccsd_t_spinorbital_toy.py:152-175 | The factored doubles residual is the written-out one: twenty-seven kinds of terms, each one integral or one nested sum, with the products of singles inside tau and tau-tilde merged by the antisymmetry of the integrals |
| CcsdDoubles.StartSolves | examples/toy/ccsd_t_spinorbital_toy.py:147-148 | The energies times the MP2 doubles are the integrals, and the start has no singles |
| CcsdElements.FaeElement | examples/toy/ccsd_t_spinorbital_toy.py:154 | Fae element by element as nested sums, its products of singles merged |
| CcsdElements.FmiElement | examples/toy/ccsd_t_spinorbital_toy.py:155 | Fmi element by element as nested sums, its products of singles merged |
| CcsdElements.FaeDressedElement | examples/toy/ccsd_t_spinorbital_toy.py:154-169 | Dressing Fae makes the coefficient of the product of singles whole |
| CcsdElements.FmiDressedElement | examples/toy/ccsd_t_spinorbital_toy.py:155-170 | Dressing Fmi makes the coefficient of the product of singles whole |
| CcsdLadders.WmnijElement | examples/toy/ccsd_t_spinorbital_toy.py:157-158 | Wmnij element by element, with tau multiplied out |
| CcsdLadders.WabefElement | examples/toy/ccsd_t_spinorbital_toy.py:159-160 | Wabef element by element, with tau multiplied out |
| CcsdLadders.HoleLadderExpanded | examples/toy/ccsd_t_spinorbital_toy.py:171 | The hole ladder multiplied out into ten sums |
| CcsdLadders.ParticleLadderExpanded | examples/toy/ccsd_t_spinorbital_toy.py:172 | The particle ladder multiplied out into ten sums, four of them those of the hole ladder |
| CcsdDoubles.WmbejElement | examples/toy/ccsd_t_spinorbital_toy.py:161-163 | Wmbej element by element, with its stored combination of amplitudes multiplied out |
| CcsdDoubles.RingExpanded | examples/toy/ccsd_t_spinorbital_toy.py:173 | The ring multiplied out into six sums |
| CcsdEnergy.EnergyOverPairs | examples/toy/ccsd_t_spinorbital_toy.py:149 | For antisymmetric amplitudes the energy is the sum over i < j and a < b of the integrals times the doubles and the antisymmetrized product of singles |
| TwoElectrons.IterationInClosedForm | examples/toy/ccsd_t_spinorbital_toy.py:152-177 | For two occupied and two virtual orbitals, no singles, and only the integrals that excite both electrons, the energies times the new amplitude are g (1 - t t), with g the one integral and t the one amplitude |
| TwoElectrons.FirstIterate | examples/toy/ccsd_t_spinorbital_toy.py:147-177 | There the first iteration from the MP2 amplitude u gives (1 - u u) u |
| SpinOrbital.BlocksRead | examples/toy/ccsd_t_spinorbital_toy.py:119-132 | What each of the eleven blocks reads, element by element: a virtual axis is shifted by the number of occupied orbitals |
| SpinOrbital.BlocksTile | examples/toy/ccsd_t_spinorbital_toy.py:119-132 | Every integral is an element of exactly one of the sixteen kinds of blocks, at exactly one index within the ranges of its axes |
| SpinOrbital.ToyIntegralsAre | examples/toy/ccsd_t_spinorbital_toy.py:101-115 | The toy's integrals written out: spin conditions times sums of eight raw elements, scaled, with the exchanged ones subtracted |
| ToyScript.ToyIsFermionic | examples/toy/ccsd_t_spinorbital_toy.py:101-120 | The toy's spin-orbital integrals are antisymmetric in both pairs for every raw tensor and every split into occupied and virtual |
| SpinOrbital.ToyIntegralsAreFermionic | examples/toy/ccsd_t_spinorbital_toy.py:103-115 | Symmetrizing, spin-blocking and antisymmetrizing any tensor gives integrals that change sign under exchange of the first pair, not only of the second pair that the last line subtracts |
| SpinOrbital.ChemistSymmetries | examples/toy/ccsd_t_spinorbital_toy.py:103-106 | The three transposed additions give the bra-ket and within-pair symmetries together, although each addition is made only once |
| SpinOrbital.BlockAntisym | examples/toy/ccsd_t_spinorbital_toy.py:129-132 | A slice by occupied and virtual ranges keeps an antisymmetry between two axes that are sliced alike |
| Ccsd.StepKeepsAntisymmetry | examples/toy/ccsd_t_spinorbital_toy.py:152-177 | One plain iteration from doubles antisymmetric in both pairs gives doubles antisymmetric in both pairs, for arbitrary singles |
| Ccsd.StartAntisym | examples/toy/ccsd_t_spinorbital_toy.py:147-148 | The MP2 start is antisymmetric in both pairs |
| Ccsd.EveryIterateAntisymmetric | examples/toy/ccsd_t_spinorbital_toy.py:145-178 | Every amplitude of every run is antisymmetric in both pairs, whatever linear combination of earlier amplitudes an accelerator puts in between |
| Ccsd.ToyRunsAreAntisymmetric | examples/toy/ccsd_t_spinorbital_toy.py:101-178 | From arbitrary raw integrals, with nothing assumed about them, every amplitude of every accelerated or plain run is antisymmetric in both pairs |
| Ccsd.WmnijAntisym | examples/toy/ccsd_t_spinorbital_toy.py:157-158 | The hole ladder intermediate is antisymmetric in its last pair |
| Ccsd.WabefAntisym | examples/toy/ccsd_t_spinorbital_toy.py:159-160 | The particle ladder intermediate is antisymmetric in its first pair |
| Ccsd.R2Antisym | examples/toy/ccsd_t_spinorbital_toy.py:168-175 | The doubles residual, term by term, is antisymmetric in both pairs |
| Congruence.StepSame | examples/toy/ccsd_t_spinorbital_toy.py:152-177 | An iteration depends on its amplitudes only through their elements, through every intermediate |
| Congruence.EnergySame | examples/toy/ccsd_t_spinorbital_toy.py:149 | Amplitudes with the same elements have the same correlation energy |
| Congruence.NaiveSame | examples/toy/ccsd_t_spinorbital_toy.py:190-195 | Amplitudes with the same elements have the same triples correction |
| CcsdGraph.Body.constructor | examples/toy/ccsd_t_spinorbital_toy.py:219-237 | The capture starts from the MP2 amplitudes with scratch of arbitrary contents |
| CcsdGraph.Body.Replay | examples/toy/ccsd_t_spinorbital_toy.py:249-335 | One replay of the in-place body leaves the amplitudes of one oracle iteration of the old amplitudes and the energy of the new ones, for any amplitudes and any stale scratch, although Fae, Fmi and tmp are overwritten between their uses |
| CcsdGraph.Body.BuildTau | examples/toy/ccsd_t_spinorbital_toy.py:252-256 | The two effective doubles, each from one outer product and a permuted accumulation |
| CcsdGraph.Body.BuildF | examples/toy/ccsd_t_spinorbital_toy.py:258-262 | The three one-body intermediates are the oracle's |
| CcsdGraph.Body.BuildWmnij | examples/toy/ccsd_t_spinorbital_toy.py:265-269 | The hole ladder intermediate is the oracle's |
| CcsdGraph.Body.BuildWabef | examples/toy/ccsd_t_spinorbital_toy.py:272-276 | The particle ladder intermediate is the oracle's |
| CcsdGraph.Body.BuildWmbej | examples/toy/ccsd_t_spinorbital_toy.py:278-283 | The ring intermediate is the oracle's, accumulated from a scaled scratch |
| CcsdGraph.Body.ResidualT1 | examples/toy/ccsd_t_spinorbital_toy.py:286-291 | The singles residual is the oracle's, from the undressed one-body intermediates |
| CcsdGraph.Body.ResidualT2 | examples/toy/ccsd_t_spinorbital_toy.py:294-320 | The doubles residual is the oracle's |
| CcsdGraph.Body.DressFae | examples/toy/ccsd_t_spinorbital_toy.py:295-296 | Fae is replaced by its dressed form in place |
| CcsdGraph.Body.DressFmi | examples/toy/ccsd_t_spinorbital_toy.py:300-301 | Fmi is replaced by its dressed form in place |
| CcsdGraph.Body.AddVirtual | examples/toy/ccsd_t_spinorbital_toy.py:297-299 | The antisymmetrized virtual term is added to the residual |
| CcsdGraph.Body.SubtractOccupied | examples/toy/ccsd_t_spinorbital_toy.py:302-304 | The antisymmetrized occupied term is subtracted from the residual |
| CcsdGraph.Body.AddLadders | examples/toy/ccsd_t_spinorbital_toy.py:305-306 | Both ladder terms are accumulated with weight one half |
| CcsdGraph.Body.AddRing | examples/toy/ccsd_t_spinorbital_toy.py:308-314 | The ring term, with its product of singles contracted through a stored intermediate, is added antisymmetrized in both pairs by four signed accumulations |
| CcsdGraph.Body.AddSingles | examples/toy/ccsd_t_spinorbital_toy.py:315-320 | The two singles terms are added and subtracted, each antisymmetrized |
| CcsdGraph.Body.Update | examples/toy/ccsd_t_spinorbital_toy.py:323-328 | Step tensors are the differences and the amplitudes become the quotients |
| CcsdGraph.Body.Correlate | examples/toy/ccsd_t_spinorbital_toy.py:331-335 | The energy of the updated amplitudes, its singles part contracted through one intermediate |
| CcsdGraph.AccumulateAntisymmetrized | examples/toy/ccsd_t_spinorbital_toy.py:298-299 | An axpby followed by one permuted accumulation adds the antisymmetrized term |
| CcsdGraph.AccumulateBothAntisymmetrized | examples/toy/ccsd_t_spinorbital_toy.py:311-314 | An axpby and three permuted accumulations add the term antisymmetrized in both pairs |
| CcsdGraph.SinglesProductFactored | examples/toy/ccsd_t_spinorbital_toy.py:309-310 | Contracting the stored product of two singles is the oracle's three-operand contraction |
| CcsdGraph.SinglesEnergyFactored | examples/toy/ccsd_t_spinorbital_toy.py:333-335 | Contracting the integrals with the singles twice, one at a time, is the oracle's three-operand energy |
| Contractions.StoredIntermediate | examples/toy/ccsd_t_spinorbital_toy.py:308-310 | Contracting a stored intermediate with further operands equals the direct contraction of all operands over all labels, for any operands, labels and extents |
| Contractions.OrderOfLabels | examples/toy/ccsd_t_spinorbital_toy.py:333-335 | A contraction does not depend on the order in which its labels are summed |
| Contractions.OverViews | examples/toy/ccsd_t_spinorbital_toy.py:455-466 | Contracting slices equals contracting the whole tensors with the sliced labels fixed |
| Einsum.EinInheritsAntisymmetry | examples/toy/ccsd_t_spinorbital_toy.py:152-175 | A contraction of two operands is antisymmetric in two output labels that sit on antisymmetric axes of exactly one operand |
| Einsum.PermuteExchanges | examples/toy/ccsd_t_spinorbital_toy.py:205-215 | A permute whose output specification exchanges two labels accumulates the tensor with those axes exchanged |
| Triples.ConnectedTriplesAntisym | examples/toy/ccsd_t_spinorbital_toy.py:190-194 | W and V are antisymmetric under every exchange of two occupied or two virtual indices |
| Triples.AntisymmetrizedIsFullyAntisym | examples/toy/ccsd_t_spinorbital_toy.py:186-188 | The two three-term antisymmetrizers make any tensor with antisymmetric last pairs fully antisymmetric |
| Triples.FoldNine | examples/toy/ccsd_t_spinorbital_toy.py:185-197 | Against a fully antisymmetric tensor the nine signed terms of the antisymmetrizer contribute nine times the first |
| Triples.FoldIsExact | examples/toy/ccsd_t_spinorbital_toy.py:195-197 | The folded energy equals the naive one for all sizes and orbital energies, from doubles and integral blocks antisymmetric in their occupied and in their virtual pairs |
| Triples.BlocksSymmetric | examples/toy/ccsd_t_spinorbital_toy.py:412-419 | The energy of an occupied triple is symmetric in it and vanishes when two of its indices coincide |
| Triples.OrderedTriplesSuffice | examples/toy/ccsd_t_spinorbital_toy.py:443-484 | One sixth of the blocks with i < j < k is one thirty-sixth of all |
| TriplesEquations.TriplesAre | examples/toy/ccsd_t_spinorbital_toy.py:186-194 | The connected and the disconnected triples written out: nine signed terms of sums of products of amplitudes and integrals |
| TriplesEquations.CorrectionOverTriples | examples/toy/ccsd_t_spinorbital_toy.py:190-195 | For every size the correction is the sum over i < j < k and a < b < c of w (w + v) over the energies, written out |
| TriplesEquations.CorrectionInClosedForm | examples/toy/ccsd_t_spinorbital_toy.py:190-195 | With three occupied and three virtual orbitals the energies times the correction are w (w + v) |
| TriplesEquations.CorrectionLowers | examples/toy/ccsd_t_spinorbital_toy.py:190-195 | With the gap and no singles the correction is not positive |
| Sums.SymmetricTriplesSixfold | examples/toy/ccsd_t_spinorbital_toy.py:412-419 | A sum over a cube of a symmetric function that vanishes on the diagonals is six times its sum over ordered triples |
| TriplesGraph.Antisymmetrize | examples/toy/ccsd_t_spinorbital_toy.py:209-215 | One overwrite and eight signed permuted accumulations compute both antisymmetrizers, whatever the destination held |
| TriplesGraph.NineTerms | examples/toy/ccsd_t_spinorbital_toy.py:137-139 | The nine listed permutations and signs are the product of the two three-term antisymmetrizers |
| TriplesGraph.WholeTensor.Replay | examples/toy/ccsd_t_spinorbital_toy.py:359-377 | The whole-tensor program computes the oracle's naive or folded energy from any stale scratch |
| TriplesGraph.WholeTensor.Connected | examples/toy/ccsd_t_spinorbital_toy.py:361-362 | The connected part is the oracle's Xc |
| TriplesGraph.WholeTensor.Disconnected | examples/toy/ccsd_t_spinorbital_toy.py:364 | The disconnected part is the oracle's Xd |
| TriplesGraph.WholeTensor.AntisymmetrizeConnected | examples/toy/ccsd_t_spinorbital_toy.py:366-367 | W and its quotient are the oracle's |
| TriplesGraph.WholeTensor.AddDisconnected | examples/toy/ccsd_t_spinorbital_toy.py:374-375 | The second factor of the naive energy is W + V |
| TriplesBlocked.Blocked.Replay | examples/toy/ccsd_t_spinorbital_toy.py:443-484 | The blocked program returns the whole-tensor naive energy, in its naive spelling needing antisymmetry in the occupied pairs only, and the folded energy as well when the virtual pairs are antisymmetric too |
| TriplesBlocked.Blocked.Triple | examples/toy/ccsd_t_spinorbital_toy.py:448-484 | One trip of the innermost loop adds one sixth of that triple's block energy and reads no scratch left by earlier trips |
| Triples.OccupiedTriplesAntisym | examples/toy/ccsd_t_spinorbital_toy.py:190-194 | W and V are antisymmetric in the occupied indices as soon as the doubles and the integral blocks are in their occupied pairs |
| TriplesBlocked.Blocked.Denominator | examples/toy/ccsd_t_spinorbital_toy.py:451-452 | The block of the denominator is rebuilt from the virtual part and one scalar |
| TriplesBlocked.Blocked.Connected | examples/toy/ccsd_t_spinorbital_toy.py:455-461 | Three occupied orderings accumulated into one block are the occupied antisymmetrizer of Xc on that block |
| TriplesBlocked.Blocked.Disconnected | examples/toy/ccsd_t_spinorbital_toy.py:463-466 | Three occupied orderings accumulated into one block are the occupied antisymmetrizer of Xd on that block |
| TriplesBlocked.Blocked.AntisymmetrizeConnected | examples/toy/ccsd_t_spinorbital_toy.py:469-472 | The virtual antisymmetrizer on the block gives the block of W and of its quotient |
| TriplesBlocked.Blocked.AddFolded | examples/toy/ccsd_t_spinorbital_toy.py:475 | The folded factor is the block of the two occupied-antisymmetrized parts |
| TriplesBlocked.Blocked.AddNaive | examples/toy/ccsd_t_spinorbital_toy.py:479-482 | The naive factor is the block of W + V |
| TriplesBlocked.ConnectedBlock | examples/toy/ccsd_t_spinorbital_toy.py:455-461 | Contracting rank-reduced slices gives the block of the whole-tensor connected part |
| TriplesBlocked.BlockEnergyFolded | examples/toy/ccsd_t_spinorbital_toy.py:475-477 | Three times the folded block contraction is the naive block energy |
| FockBuild.ForLoop | devtools/profiling/profile_strategies.cpp:64-88 | For every n and any previous contents the fused nest leaves the Fock matrix in the array, every flat offset in bounds |
| FockBuild.Unfused | devtools/profiling/profile_strategies.cpp:95-128 | For every n and any previous contents the two-pass nest leaves the Fock matrix in the array |
| FockBuild.ColumnInBounds | devtools/profiling/profile_strategies.cpp:80-83 | Every column that the nest walks lies inside the four-index buffer |
| FockBuild.Column | devtools/profiling/profile_strategies.cpp:76-86 | The two inner loops add a column's total of one pass and touch no other column |
| FockBuild.Turn | devtools/profiling/profile_strategies.cpp:78-84 | One trip of the two inner loops adds its contribution to every element of its column only |
| FockBuild.TwoPasses | devtools/profiling/profile_strategies.cpp:101-127 | The Coulomb pass less the exchange pass is the fused sum |
| FockBuild.TeiIs | devtools/profiling/profile_strategies.cpp:80-83 | Where an integral stands in its flat array |
| FockBuild.FockIsSymmetric | devtools/profiling/profile_strategies.cpp:64-88 | With real integrals and a symmetric density the matrix is symmetric |
| FockBuild.StepConsistent | devtools/profiling/profile_strategies.cpp:70-87 | One element write of one thread keeps every element consistent with its own thread's progress |
| FockBuild.EveryScheduleBuildsG | devtools/profiling/profile_strategies.cpp:70-87 | Under every interleaving of element writes, once every thread has finished its column the matrix is the serial one |
| DfMp2.Pooled.constructor | examples/psi4-bridge/df_mp2_graph.py:187-206 | The pools are as deep as the smaller of the pool limit and the pair count, with arbitrary contents |
| DfMp2.Pooled.Grouped | examples/psi4-bridge/df_mp2_graph.py:209-233 | Over uninterpreted arithmetic the chunked form is the left fold of the pair energies in pair order; it cannot run exactly when the depth is zero, which is a zero step of the range |
| DfMp2.Pooled.Chunk | examples/psi4-bridge/df_mp2_graph.py:213-229 | Each slot of a chunk holds its own pair's energy, from slots written before they are read |
| DfMp2.Pooled.AccumulateChunk | examples/psi4-bridge/df_mp2_graph.py:232-233 | Accumulating a chunk extends the fold of the earlier pairs by the pairs of the chunk, in order |
| DfMp2.Pooled.PerPair | examples/psi4-bridge/df_mp2_graph.py:236-249 | The per-pair form is the left fold of the pair energies in pair order |
| DfMp2.BothForms | examples/psi4-bridge/df_mp2_graph.py:187-249 | For any kernels, any pairs and any positive pool limit both forms return the identical value, and the chunked one runs exactly when there is a pair |
| DfMp2.Eager.Correlation | examples/psi4-bridge/df_mp2_energy.py:126-140 | The loop over i <= j with weights one and two returns the MP2 energy written out: the sum over all i, j, a, c of x (2 x - y) over the energies, with x and y the direct and the exchanged integral, each a sum over Q of products of two elements of the fitted tensor |
| DfMp2.Eager.Pair | examples/psi4-bridge/df_mp2_energy.py:131-139 | One pair's energy, from scratch of arbitrary contents, is the sum over a, b of its numerators over its gaps |
| DfMp2.EnergiesSymmetric | examples/psi4-bridge/df_mp2_energy.py:131-140 | Pair energies are symmetric, because the integrals of a pair are the transpose of those of its mirror image |
| DfMp2.TriangleIsSquare | examples/psi4-bridge/df_mp2_energy.py:126-140 | A weighted triangle of a symmetric function is its full square |
| DfMp2.RealEnergyIsFullSum | examples/psi4-bridge/df_mp2_graph.py:187-249 | Over the reals the fold that both graph forms compute is the same written-out energy |
| DfMp2.IntegralsAre | examples/psi4-bridge/df_mp2_energy.py:127-131 | The integrals of a pair contract the slabs of its two occupied orbitals over the auxiliary index |
| DfMp2.Mp2IsLocal | examples/psi4-bridge/df_mp2_energy.py:126-140 | The energy depends on the fitted tensor only at auxiliary, occupied and virtual indices in range |
| DfMp2.Mp2Lowers | examples/psi4-bridge/df_mp2_energy.py:126-140 | With the gap the correlation energy is not positive |
| DfLadder.Ladder.PairDriven | examples/psi4-bridge/ccsd_rhf_graph_numpy_style.py:250-256 | The pair loop adds to each slice of r2 the contraction of tau with the reconstructed four-index tensor, and to nothing else |
| DfLadder.Ladder.Pair | examples/psi4-bridge/ccsd_rhf_graph_numpy_style.py:253-256 | One pair changes its own slice only, whatever the shared buffer held |
| DfLadder.Ladder.Whole | examples/psi4-bridge/ccsd_rhf_numpy_style.py:240-241 | The two-step form adds to r2 the contraction of tau with the reconstructed four-index tensor |
| DfLadder.DirectIsTriple | examples/psi4-bridge/ccsd_rhf_oracle.py:130 | Contracting with the reconstructed v^4 tensor equals the three-operand contraction that never forms it |
| DfLadder.WholeIsTriple | examples/psi4-bridge/ccsd_rhf_numpy_style.py:240-241 | The whole-tensor form equals the three-operand contraction |
| DfLadder.PairIsTriple | examples/psi4-bridge/ccsd_rhf_graph_numpy_style.py:253-256 | Each pair's contraction is its slice of the three-operand contraction |
| DfLadder.LadderIs | examples/psi4-bridge/ccsd_rhf_oracle.py:130 | What every form adds to an element, written out: the sum over e and f of tau times the sum over Q of two elements of the fitted tensor |
| Diis.Accelerator.Push | examples/psi4-bridge/ccsd_rhf_numpy_style.py:107-112 | A pair is appended and the oldest dropped when there are too many |
| Diis.Accelerator.Extrapolate | examples/psi4-bridge/ccsd_rhf_numpy_style.py:114-135 | With any exact solver the extrapolant combines the held vectors with weights that sum to one and make the combined error as small as any such weights can; failures drop the oldest pairs, and there is no extrapolant just when fewer than two are left |
| Diis.Bordered | examples/psi4-bridge/ccsd_rhf_numpy_style.py:116-125 | Filling by symmetric pairs and dividing by the largest entry gives the bordered matrix of inner products, also when every entry is zero |
| Diis.SolutionIsOptimal | examples/psi4-bridge/ccsd_rhf_numpy_style.py:116-134 | A solution of the bordered system is optimal whatever the matrix was divided by |
| Diis.EquallyInclined | examples/psi4-bridge/ccsd_rhf_numpy_style.py:95-101 | Weights whose combined error has the same inner product with every held error are optimal |
| Diis.CombineIs | examples/psi4-bridge/ccsd_rhf_numpy_style.py:126-134 | Every element of a combination is the sum of the weights times that element of the held vectors |
| QuarterTransform.Transform.Replay | examples/psi4-bridge/cc_integrals_incore.py:119-135 | All four integral blocks computed through the shared quarter transforms equal their direct four-fold sums, for arbitrary integrals and coefficients and from any stale buffer |
| QuarterTransform.Transform.SharedThird | examples/psi4-bridge/cc_integrals_incore.py:126-128 | The oooo and ooov blocks, from one shared third quarter, equal their direct sums |
| QuarterTransform.Transform.VirtualThird | examples/psi4-bridge/cc_integrals_incore.py:129-130 | The oovv block equals its direct sum |
| QuarterTransform.Transform.Exchange | examples/psi4-bridge/cc_integrals_incore.py:133-135 | The ovov block, transformed in another order from the same first quarter, equals its direct sum |
| QuarterTransform.DirectBranch | examples/psi4-bridge/cc_integrals_incore.py:152-155 | Four nested quarter transforms are the direct sum, for any last two coefficient blocks |
| QuarterTransform.ExchangeBranch | examples/psi4-bridge/cc_integrals_incore.py:156 | With the middle axes transformed in the other order, four nested quarter transforms are the direct sum of the exchange block |
| QuarterSlices.OoooIsSlice | examples/psi4-bridge/cc_integrals_incore.py:151-153 | The oooo block is the occupied slice of the one four-fold transform with the occupied and virtual coefficients side by side |
| QuarterSlices.OoovIsSlice | examples/psi4-bridge/cc_integrals_incore.py:151-154 | The ooov block is the slice of the same transform with a virtual last index |
| QuarterSlices.OovvIsSlice | examples/psi4-bridge/cc_integrals_incore.py:151-155 | The oovv block is the slice of the same transform with its last two indices virtual |
| QuarterSlices.OvovIsSlice | examples/psi4-bridge/cc_integrals_incore.py:151-156 | The ovov block is the slice of the same transform with its second and fourth indices virtual |
| Billing.Biller.Begin | examples/dlpno/bench_vs_psi4.py:303-305 | Entering a wrapper keeps the rows and the stack in balance with the completed outermost time |
| Billing.Biller.End | examples/dlpno/bench_vs_psi4.py:308-313 | Leaving a wrapper charges its row, credits the wrapper below, and keeps the balance; with a clock that does not run backwards no row becomes negative |
| Billing.Biller.Timed | examples/dlpno/bench_vs_psi4.py:303-313 | A whole call, returning or raising, with everything nested in it, charges every row exactly the exclusive times of the forest |
| Billing.Biller.Session | examples/dlpno/bench_vs_psi4.py:291-315 | At rest the rows sum to the elapsed time of the outermost calls |
| Billing.ChargesConserve | examples/dlpno/bench_vs_psi4.py:283-288 | Exclusive times over a forest add up to the elapsed times of its outermost calls |
| Billing.RecursionChargedOnce | examples/dlpno/bench_vs_psi4.py:283-313 | A row that calls itself is charged the time of its outermost calls once, however deep it nests, and a row that is never called nothing |
| Billing.NestedCharges | examples/dlpno/bench_vs_psi4.py:303-313 | A call around calls of other rows is charged its stop less its start less their elapsed times |
| Billing.ChargesAreNonnegative | examples/dlpno/bench_vs_psi4.py:309-313 | With calls in time order no row is ever charged a negative time |
| Tiles.TilesPartition | examples/tiled/ccsd_spinorbital_tiled_toy.py:165-170 | For any block sizes on any number of axes, every index lies in its owner tile and in no other |
| Tiles.BlocksPartition | examples/tiled/ccsd_spinorbital_tiled_toy.py:163-169 | Blocks of one axis, empty ones included, are disjoint and cover it |
| Tiles.Tiled.Make | examples/tiled/ccsd_spinorbital_tiled_toy.py:160-171 | Every tile of the grid exists and holds its region of the array |
| Tiles.CutIs | examples/tiled/ccsd_spinorbital_tiled_toy.py:165-170 | The element of a tile at a place is the array's element at the sizes of the blocks before it plus that place |
| Tiles.PastedIs | examples/tiled/ccsd_spinorbital_tiled_toy.py:196-201 | A tile written over its region stands at the sizes of the blocks before it |
| Tiles.Tiled.Gather | examples/tiled/ccsd_spinorbital_tiled_toy.py:191-202 | The dense copy holds each index's owner tile's element, and zero where the tile is missing |
| Tiles.ScatterAndGather | examples/tiled/ccsd_spinorbital_tiled_toy.py:160-202 | Scattering and gathering returns the array at every index in range, also when occupied and virtual dimensions have the same length |
| ProfileTree.SumExclusive | devtools/profiling/profile_viewer.py:224-229 | The recursive loop returns the exclusive time of all nodes of the tree |
| ProfileTree.Flat.Walk | devtools/profiling/profile_viewer.py:909-967 | The walk visits every node once, parents first, and keeps every row equal to its name's totals |
| ProfileTree.AggregateFlat | devtools/profiling/profile_viewer.py:901-970 | Each name once, in order of first visit, with its total time and calls and the greatest of its inclusive times; the rows together conserve the tree's time and calls |
| ProfileExample.FlatView | devtools/profiling/profile_viewer.py:901-970 | The rows of a tree in which "a" calls "b" and "b" calls "a" again, in numbers |
| ProfileTree.SplitTotal | devtools/profiling/profile_viewer.py:224-229 | Choices that pick every visit of a whole exactly once add up to the whole |
| BottomUp.Inverter.Walk | devtools/profiling/profile_viewer.py:2092-2108 | The walk keeps the totals of every callee and the shares of every caller |
| BottomUp.BuildBottomUp | devtools/profiling/profile_viewer.py:2081-2131 | Each name once; its time and calls are those of its callers, listed once each by descending time and, at equal times, in the order of their first calls, plus its root occurrences and its occurrences under nodes with an empty name; all names conserve the tree |
| ProfileExample.InvertedView | devtools/profiling/profile_viewer.py:2081-2131 | The inverted view of the same tree, in numbers |
| BottomUp.CallersConserve | devtools/profiling/profile_viewer.py:2099-2106 | The callers of a name account for every visit under a named parent |
| BottomUp.CallersAndRootsSuffice | devtools/profiling/profile_viewer.py:2099-2106 | With times that are not negative, a callee is its callers plus its root occurrences exactly when each of its occurrences under a node with an empty name took no time |
| BottomUp.NeverUnderNameless | devtools/profiling/profile_viewer.py:2099-2106 | With positive times or counts, exactly when the walk never meets it under a node with an empty name |
| BottomUp.OrphanFallsShort | devtools/profiling/profile_viewer.py:2092-2110 | A callee under a node with an empty name has time that neither callers nor root occurrences account for |
| BottomUp.NamedTreesAccount | devtools/profiling/profile_viewer.py:2099-2110 | In a tree whose nodes all have names nothing runs under a node with an empty name |
| CmakeCleanup.CleanupCmake | libs/create_module_skeleton/cleanup_cmake.py:11-97 | The output keeps every visible character in order, ends with a newline, and has no two blank lines in a row |
| CmakeCleanup.Squeeze | libs/create_module_skeleton/cleanup_cmake.py:71-91 | The character automaton keeps exactly the characters that are not white space after white space outside quotes and comments |
| CmakeCleanup.Place | libs/create_module_skeleton/cleanup_cmake.py:30-65 | The depth of a line and what stays open after it |
| CmakeCleanup.SqueezeKeepsProtected | libs/create_module_skeleton/cleanup_cmake.py:74-91 | Squeezing a stripped line keeps every character inside quotes or a comment, in order |
| CmakeCleanup.SqueezeLeavesNoDoubleSpace | libs/create_module_skeleton/cleanup_cmake.py:77-80 | No white space follows white space outside quotes and comments |
| CmakeCleanup.SqueezeFixedPoint | libs/create_module_skeleton/cleanup_cmake.py:71-91 | A line changes exactly when it has such a double space, and cleaning twice is cleaning once |
| CmakeCleanup.CleanedLine | libs/create_module_skeleton/cleanup_cmake.py:67-92 | An output line is its indent and a text that starts visibly, keeps every visible character, and keeps the characters inside quotes and comments of the stripped line |
| CmakeCleanup.CleanupKeepsVisible | libs/create_module_skeleton/cleanup_cmake.py:11-97 | A whole file keeps its visible characters in order, for any indent and any character classes |
| CmakeCleanup.BlankLinesStandAlone | libs/create_module_skeleton/cleanup_cmake.py:22-28 | Read back, the output is its lines with nothing after the last newline, and blank lines never adjoin; the final newline check never adds one |
| CmakeIndent.AfterIsNesting | libs/create_module_skeleton/cleanup_cmake.py:38-63 | What is open before a line is the blocks and parentheses opened less those closed so far |
| CmakeIndent.ClosersAlign | libs/create_module_skeleton/cleanup_cmake.py:38-46 | Outside parentheses a closing or continuing keyword stands level with an opening one exactly when the lines between balance, and off by the difference otherwise |
| CmakeIndent.DepthIs | libs/create_module_skeleton/cleanup_cmake.py:38-65 | Every line stands as deep as the blocks and parentheses open before it, one less when it ends or continues a block, one more when it continues an upper-case argument |
| CmakeIndent.ArgumentRuns | libs/create_module_skeleton/cleanup_cmake.py:48-65 | The argument depth is one exactly while some upper-case argument has started inside parentheses and no line since closes more than it opens |
| CmakeIndent.IdentOfLine | libs/create_module_skeleton/cleanup_cmake.py:31-36 | The first word is that of the stripped line, except that an indented line has none |
| CmakeIndent.FirstColumnCounts | libs/create_module_skeleton/cleanup_cmake.py:31-46 | A line that reads as a keyword counts as one, and opens or closes a block, exactly when it is not indented |
| CmakeIndent.IndentedEndif | libs/create_module_skeleton/cleanup_cmake.py:31-46 | After if() an endif() in the first column leaves no block open, and an indented one leaves it open |
| CmakeIndent.UnclosedIs | libs/create_module_skeleton/cleanup_cmake.py:57-63 | A line opens its opening parentheses less its closing ones in front of the first comment sign |
| CmakeIndent.IdentIs | libs/create_module_skeleton/cleanup_cmake.py:31-36 | The first word is the longest run of letters that a line starts with |
| CmakeBlocks.StartsHaveEnds | libs/create_module_skeleton/cleanup_cmake.py:7-9 | A word opens blocks exactly when "end" in front of it gives a word that closes them |
| CmakeBlocks.BlockLayout | libs/create_module_skeleton/cleanup_cmake.py:38-46 | For each of the six words, written out: the line after it stands one deeper unless it continues or ends a block, its end word stands level with it, and together they leave open what was open |
| CmakeBlocks.MiddleLayout | libs/create_module_skeleton/cleanup_cmake.py:39-40 | else() and elseif() stand level with if() and leave its block open |
| CmakeBlocks.OneBlockCleaned | libs/create_module_skeleton/cleanup_cmake.py:11-92 | One block of any of the six words around one line, cleaned: the line in it is indented once and nothing else is |
| CmakeProtection.RunCollapses | libs/create_module_skeleton/cleanup_cmake.py:77-80 | A run of white space in code collapses to its first character, whatever follows |
| Text.StripIs | libs/create_module_skeleton/cleanup_cmake.py:21 | Stripping takes white space off both ends and leaves none there |
| CmakeProtection.LineKeepsProtected | libs/create_module_skeleton/cleanup_cmake.py:20-92 | Reading quotes from the start of the line, an output line keeps the characters inside quotes and comments of its line exactly when no white space trails after a quote that the line leaves open or in a comment |
| CmakeProtection.CleanupKeepsProtected | libs/create_module_skeleton/cleanup_cmake.py:11-97 | With quotes read afresh on every line, as the code reads them, a whole text keeps the characters inside quotes that open on the same line and inside comments, in order, exactly when no line has such white space trailing |
| CmakeProtection.OpenQuoteLosesBlank | libs/create_module_skeleton/cleanup_cmake.py:21-92 | A line that ends with a blank after a quote it leaves open, so that the string goes on in the next line, loses the blank |
| CmakeScanner.LineMarks | libs/create_module_skeleton/cleanup_cmake.py:20-92 | A line with content, started in code or in a string that an earlier line left open, keeps its strings and comments and gets nothing inserted into them exactly when, in a string, the white space in front is the computed indent, no blank that is dropped lies in a string, and nothing trails while a string or comment is open |
| CmakeStrings.LinesMark | libs/create_module_skeleton/cleanup_cmake.py:20-92 | Over any lines, with strings that may span them, cleaning leaves the same string open after the last line, and the contents of strings and comments are the same exactly when every line is intact: a line with content as above, and a blank line in a string is empty and does not follow a blank line |
| CmakeStrings.CleanupKeepsStrings | libs/create_module_skeleton/cleanup_cmake.py:11-97 | For every text, cleaning neither loses nor inserts a character inside its strings, which may span lines, and comments exactly when every line is intact; the text is read with its last line ended as the others are |
| CmakeStrings.CleanupKeepsClosedStrings | libs/create_module_skeleton/cleanup_cmake.py:11-97 | The same for a text read as it is, when it ends outside strings and comments |
| CmakeStrings.CleanupKeepsOpenStrings | libs/create_module_skeleton/cleanup_cmake.py:11-97 | A text that ends inside a string or comment gains a newline there unless cleaning drops its empty last line: it keeps its strings and comments exactly when that happens in a string and every earlier line is intact |
| CmakeStrings.ClosedLinesIntact | libs/create_module_skeleton/cleanup_cmake.py:20-92 | When every line closes its quotes, lines without guarded trailing white space are intact, and when no comment sign stands in a string the two conditions are the same |
| CmakeStrings.SpanningStringLosesBlank | libs/create_module_skeleton/cleanup_cmake.py:71-91 | A string over two lines loses one of two adjacent blanks on its second line, although no line has guarded white space trailing |
| CmakeStrings.SpanningTextLosesBlank | libs/create_module_skeleton/cleanup_cmake.py:11-97 | Cleaning the text of these two lines changes the contents of its string, for every indent |
| CmakeReclean.LineAgain | libs/create_module_skeleton/cleanup_cmake.py:67-92 | Cleaning an output line again leaves it alone exactly when the same indent is computed for it again |
| CmakeReclean.LinesAgain | libs/create_module_skeleton/cleanup_cmake.py:20-92 | A second cleaning keeps the number of lines, has open what the words left in the first column say, and changes nothing exactly when every line gets the same indent from them |
| CmakeReclean.CleanupAgain | libs/create_module_skeleton/cleanup_cmake.py:11-97 | Cleaning a cleaned text changes nothing exactly when nothing but white space followed the last newline and every line gets the same indent from the words that stay in the first column |
| CmakeReclean.QuietLinesAreSteady | libs/create_module_skeleton/cleanup_cmake.py:30-53 | If no indented line starts with a keyword or, inside parentheses, an upper-case argument, and no other line had its first word indented, every line gets the same indent again |
| CmakeReclean.FlatTextAgain | libs/create_module_skeleton/cleanup_cmake.py:30-68 | A text whose lines start in the first column, open no parentheses across lines and close no block that is not open is unchanged by a second cleaning exactly when nothing but white space follows its last newline and no line is indented more than one level |
| CmakeReclean.NoIndentAgain | libs/create_module_skeleton/cleanup_cmake.py:67-68 | With no indent a second cleaning changes nothing exactly when nothing but white space followed the last newline |
| CmakeReclean.NestedBlocksFlatten | libs/create_module_skeleton/cleanup_cmake.py:30-68 | Two nested blocks around one line are changed by a second cleaning |
| IndexIterator.TensorIndices.constructor | pyeinsums/utils.py:117-128 | The strides and size are the row-major ones |
| IndexIterator.TensorIndices.Reversed | pyeinsums/utils.py:145-155 | The reversed iterator starts at the other one's position |
| IndexIterator.TensorIndices.Next | pyeinsums/utils.py:157-181 | The multi-index at the current position, one step on, or a stop that changes nothing |
| IndexIterator.TensorIndices.Drain | pyeinsums/utils.py:157-181 | Forward it yields everything from its position on, reversed at position k it yields k down to 0, and it yields nothing from a position out of range on either side |
| IndexIterator.TensorIndices.FullRun | pyeinsums/utils.py:117-181 | A fresh iterator yields every multi-index and stops; reversing it then yields nothing |
| IndexIterator.TensorIndices.BackAndForth | pyeinsums/utils.py:145-181 | An iterator in range, reversed, walks back to 0; that run leaves the position before the first, from where it and the iterator reversed again yield nothing |
| IndexIterator.DigitsInRange | pyeinsums/utils.py:171-174 | Division by the strides gives the in-range multi-index whose stride sum is the position |
| IndexIterator.IndexAtItsPosition | pyeinsums/utils.py:171-174 | Every in-range multi-index is the one at its stride sum |
| IndexIterator.EveryIndexOnce | pyeinsums/utils.py:157-181 | Each multi-index is yielded at its stride sum and at no other step |
| IndexIterator.LexicographicOrder | pyeinsums/utils.py:171-179 | Later positions are lexicographically greater |
| RobustStats.MedianIsRobust | devtools/benchmarks/compare.py:53-59 | If strictly more than half of the samples lie in a range, so does the median, for odd and even lengths |
| RobustStats.MadIsRobust | devtools/benchmarks/compare.py:62-66 | If strictly more than half of the samples lie in a range, their median absolute deviation is at most its width |
| RobustStats.HalfIsNotEnough | devtools/benchmarks/compare.py:53-59 | With only half of the samples in the range the median exceeds any bound |
| RobustStats.MedianAffine | devtools/benchmarks/compare.py:53-59 | The median follows every scaling, shift and change of sign of the samples |
| RobustStats.MadAffine | devtools/benchmarks/compare.py:62-66 | The deviation is multiplied by the size of a scaling and does not see a shift or a change of sign |
| RobustStats.NegatedSamples | devtools/benchmarks/compare.py:53-66 | Negating all samples negates the median and keeps the deviation |
| LineReader.Reader.Process | devtools/benchmarks/runner.py:227-237 | Complete lines are taken off the buffer in order until none is left or one fails |
| LineReader.Reader.Collect | devtools/benchmarks/runner.py:218-241 | However the stream is cut, timeouts included, the results are the messages of the complete lines up to the first one whose handling fails, and the buffer is the remainder |
| LineReader.Reader.ReadMessages | devtools/profiling/profile_viewer.py:435-464 | One read returns the messages of the lines that became complete and leaves the remainder; a closed or failed connection changes nothing |
| LineReader.Reader.Follow | devtools/profiling/profile_viewer.py:435-464 | Over one connection, however the text is cut into reads, the messages are those of the complete lines of what was delivered, in order, and the buffer is the remainder |
| LineReader.Reader.TwoConnections | devtools/profiling/profile_viewer.py:412-464 | A client that connects again joins what the first connection left to the first line of the second, which changes no message exactly when the second completes no line or that line is handled the same with the remainder in front |
| LineReader.JoinsConnections | devtools/profiling/profile_viewer.py:412-464 | A connection that ends inside a line followed by another that completes one yields a message that was never sent |
| LineReader.CrashHidesMessage | devtools/benchmarks/runner.py:232-241 | For any handler, a line whose handling fails hides the message of the line after it |
| LineReader.LosesMessage | devtools/benchmarks/runner.py:218-241 | The collector over one read of a line that is a number and a message returns nothing |
| LineReader.CompleteExactlyWhen | devtools/benchmarks/runner.py:232-241 | Nothing is lost exactly when no kept message follows the first line whose handling fails |
| LineReader.OneMessageEach | devtools/benchmarks/runner.py:227-241 | There is exactly one message per kept line, in order, each read from its stripped line |
| LineReader.DeliveredIs | devtools/benchmarks/runner.py:218-241 | What is delivered is the texts up to the first read that ends the connection; time-outs deliver and end nothing |
| Text.SplitContinues | devtools/benchmarks/runner.py:224-228 | Splitting more text continues from the remainder of what was read before |
| Text.LinesAndRest | devtools/benchmarks/runner.py:227-228 | Splitting loses no character |

## Left out

- psi4, BLAS, the tensor kernels, the Python bindings and the graph passes: only the element-wise meaning of the calls
  is used, and the nodes run in capture order.
- Floating-point rounding: elements are reals, except in `DfMp2.Pooled`, whose arithmetic is uninterpreted.
- `Einsum.Div`: a zero denominator gives zero where floating point gives an infinity or NaN; an orbital gap excludes it
  (`SpinOrbital.GapMakesDenominatorsNegative`).
- Aliasing of tensors: buffers are fields with values, and no modelled operation reads the buffer that it overwrites
  except to accumulate into it; the slice cache of `run_triples_blocked` is therefore its slices.
- Convergence, and the inside of the graph library's accelerator: `Ccsd.EveryIterateAntisymmetric` holds for every choice
  of weights, and `ToyScript.Iterate` is about plain iterations. `Diis` models the accelerator that is written out.
- The tiled toy's own iteration: the same equations as the toy's, over tiled storage.
- The restricted closed-shell iterations of the psi4 bridge beyond their particle ladder: the spin-orbital iteration is
  the harder one of the same kind.
- Memory models weaker than one element write at a time in the parallel Fock loop.
- The `reverse` keyword of `TensorIndices`, the tensor factories and `enumerate_many` of pyeinsums/utils.py.
- Escaped quotes and bracket arguments of the CMake language: neither the cleaning code nor `CmakeScanner` knows them.
- Annotations, counters, memory and spread statistics in `_aggregate_flat`, and `flatten_tree`, `parse_node`, widgets and
  networking of the profile viewer.
- JSON parsing and UTF-8 decoding: a handler says of each line whether it is kept, skipped or fails, and reads deliver
  characters.
- Connecting, retrying and stopping in the collector of runner.py.
- The inside of grouped kernels: `DfMp2` takes a grouped call to apply the single call's kernel to each entry, in order,
  and claims identical results on that understanding.
- Exceptions thrown by the clock or the dictionary inside `bill`, and calls billed from several threads at once.
- Benchmark verdicts, storage and reports, SQL, the DLPNO drivers, environment merging, module skeletons and plotting.
