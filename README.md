# Lo-QOS core, modelled in Dafny

This project models the computational core of the Lo-QOS website. It does not cover the pages, canvases or React views.

It models these parts, one Dafny file each:

| File | Models | Source |
|---|---|---|
| `complex.dfy` | complex numbers | `assets/js/complex.js` |
| `gates.dfy` | the quantum gate matrices | `assets/js/quantum-gates.js` |
| `emulation.dfy` | the qubit emulator | `assets/js/quantum-emulation.js` |
| `worker.dfy` | the Hadamard web worker | `assets/js/quantum-worker.js` |
| `entanglement.dfy` | the entanglement manager | `assets/js/entanglement-manager.js` |
| `binary.dfy` | its binary indexing helpers | `assets/js/entanglement-manager.js` |
| `quantum_system.dfy` | the quantum system | `assets/js/quantum-system.js` |
| `cards.dfy` | the QgamesX card table | `docs/QgamingX/QgamesX/assets/js/scripts.js` |
| `obstacle_game.dfy` | the obstacle runner | `assets/js/game.js` |
| `qcli.dfy` | the QCLI command line | `docs/QgamingX/qgaming-implementation.js` |
| `media_player.dfy` | the Qintergrate media player | `developers/OS/Qintergrate/quantum-media-player.js` |
| `optimizer.dfy` | the Qintergrate optimizer | `developers/OS/Qintergrate/quantum-optimizer.js` |
| `component.dfy` | the QgamingX processing-state cycle | `docs/QgamingX/qgaming-x-component.tsx` |
| `particle.dfy` | the particle | `pages/features/js/particle.js` |
| `clock.dfy` | the quantum clock | `pages/features/js/QuantumClock.js` |
| `config.dfy` | the constants both read | `pages/features/js/config.js` |
| `protocol.dfy` | the `loqos://` link router | `assets/js/protocol.js` |
| `markdown.dfy` | the entanglement mapping of a markdown text | `docs/QgamingX/assets/js/quantumMarkdown.js` |

`wrappers.dfy` holds the Option and Result types, and `reals.dfy` holds `Math.min` and `Math.max` on numbers, which the clock and the optimizer share.

The model keeps the shape of the source:
- Pure value code becomes datatypes, functions and lemmas: `Complex`, the gate matrices, the worker's `map`, file-type detection, the cycle and flags, and routing.
- Objects and globals that change in place become classes with `modifies` clauses. These are `EntanglementManager`, `QuantumSystem`, `CardTable`, `ObstacleGame`, `CommandLine`, `MediaPlayer`, `QuantumOptimizer`, `Particle`, `QuantumClock` and `ProtocolNavigator`.
- Each loop in the source becomes a method with loop invariants, proved against a specification function. The loops are:
  - the deck build and the Fisher–Yates swap loop;
  - the deal and `moveObstacles`;
  - `calculateReducedState` and the member update of `updateEntangledState`;
  - `formatSize` and `simulateCompression`;
  - `spawnParticles`, the particle loops of `setMode` and `animate`, and the markdown mapping loop.
- The `forEach` of `updateQuantumStates` becomes a map comprehension, because each qubit's step is independent of the others.

The model leaves out these parts of the environment:
- Randomness (`Math.random`, `crypto.randomUUID`), the clock (`Date.now`, `new Date()`) and trigonometry are parameters. The model takes the draws, the fresh id, the hours and minutes, and the sines and cosines as arguments.
- `Math.sqrt` is a parameter `sqrt` that gives a non-negative root of a non-negative real. `1/Math.sqrt(2)` is a real `s` with `2·s² = 1` (`QuantumGates.IsInvSqrt2`).
- Floating-point numbers are exact reals. Integers are unbounded.

## Model

| member | source | states |
|---|---|---|
| ComplexNumbers.FromReal | assets/js/complex.js:3-6 | `new Complex(r)` has real part r and imaginary part 0 |
| ComplexNumbers.Add | assets/js/complex.js:8-10 | taking b back off the sum, part by part, gives a |
| ComplexNumbers.Multiply | assets/js/complex.js:12-17 | multiplying by 1 returns the value, a factor 0 gives 0, and a real factor scales both parts |
| ComplexNumbers.MagnitudeSquared | assets/js/complex.js:19-21 | re² + im² is never negative |
| ComplexNumbers.DivideBy | assets/js/entanglement-manager.js:51 | for a non-zero real k, each part of the quotient times k is the dividend's part |
| ComplexNumbers.AddComponentwise | assets/js/complex.js:8-10 | addition is componentwise and commutative, and 0 is its identity |
| ComplexNumbers.MultiplyCommutative | assets/js/complex.js:12-17 | multiplication is commutative |
| ComplexNumbers.MultiplyIdentity | assets/js/complex.js:12-17 | multiplying by `Complex(1)` returns an equal value; multiplying by 0 gives 0 |
| ComplexNumbers.MultiplyAssociative | assets/js/complex.js:12-17 | multiplication is associative |
| ComplexNumbers.MultiplyDistributes | assets/js/complex.js:8-17 | multiplication distributes over addition |
| ComplexNumbers.SquareNonnegative | assets/js/complex.js:19-21 | a square is non-negative, and positive for a non-zero real |
| ComplexNumbers.MagnitudeSquaredZeroIff | assets/js/complex.js:19-21 | magnitude² is non-negative, and it is 0 iff both parts are 0 |
| ComplexNumbers.MagnitudeSquaredMultiplicative | assets/js/complex.js:12-21 | the magnitude² of a product is the product of the magnitudes² |
| ComplexNumbers.DivideByInverts | assets/js/entanglement-manager.js:51 | dividing by a non-zero real k and multiplying back by k is the identity (the division that normalisation evidently means) |
| ComplexNumbers.MagnitudeSquaredDivided | assets/js/entanglement-manager.js:50-51 | dividing by k scales the magnitude² down by k² |
| ComplexNumbers.UnitFromScaled | assets/js/entanglement-manager.js:50-51 | if x·b = b for a positive b, then x = 1: the step that makes a normalised norm exactly 1 |
| QuantumGates.Scale | assets/js/quantum-gates.js:4-10 | scaling by a real is multiplication by that real as a complex number |
| QuantumGates.Negate | assets/js/quantum-gates.js:26-31 | the negation is the additive inverse |
| QuantumGates.Subtract | assets/js/quantum-gates.js:4-10 | a − b is the value that gives a when b is added back |
| QuantumGates.H | assets/js/quantum-gates.js:4-10 | `hadamard()` is a 2×2 matrix equal to its transpose |
| QuantumGates.X | assets/js/quantum-gates.js:12-17 | `pauliX()` is 2×2, equal to its transpose and to its conjugate transpose |
| QuantumGates.Y | assets/js/quantum-gates.js:19-24 | `pauliY()` is 2×2 and equal to its conjugate transpose |
| QuantumGates.Z | assets/js/quantum-gates.js:26-31 | `pauliZ()` is 2×2, equal to its transpose and to its conjugate transpose |
| QuantumGates.CNOT | assets/js/quantum-gates.js:33-40 | `cnot()` is 4×4, equal to its transpose and to its conjugate transpose |
| QuantumGates.SWAP | assets/js/quantum-gates.js:42-49 | `swap()` is 4×4, equal to its transpose and to its conjugate transpose |
| QuantumGates.PhaseGate | assets/js/quantum-gates.js:51-56 | `phaseGate(θ)` is 2×2 and equal to its transpose; for sin θ = 0 it is also its own conjugate transpose |
| QuantumGates.MatVec | assets/js/quantum-gates.js:4-56 | a matrix applied to a vector has one entry per row, each the row's dot product with the vector |
| QuantumGates.HEntries | assets/js/quantum-gates.js:4-10 | H is 2×2 with every entry s except [1][1] = −s |
| QuantumGates.HApply | assets/js/quantum-gates.js:4-10 | H·(a,b) = (s(a+b), s(a−b)) |
| QuantumGates.HSelfInverse | assets/js/quantum-gates.js:4-10 | with s = 1/√2, applying H twice is the identity |
| QuantumGates.HNormPair | assets/js/quantum-gates.js:4-10 | with s = 1/√2, the two outputs of H on (a, b) together carry the squared magnitudes of a and b |
| QuantumGates.HPreservesNorm | assets/js/quantum-gates.js:4-10 | with s = 1/√2, H preserves the sum of the squared magnitudes |
| QuantumGates.XSwaps | assets/js/quantum-gates.js:12-17 | X·(a,b) = (b,a), so X twice is the identity |
| QuantumGates.YApply | assets/js/quantum-gates.js:19-24 | Y·(a,b) = (−i·b, i·a) |
| QuantumGates.ZNegatesSecond | assets/js/quantum-gates.js:26-31 | Z·(a,b) = (a,−b), so Z is self-inverse |
| QuantumGates.CNOTPermutes | assets/js/quantum-gates.js:33-40 | CNOT fixes basis states 0 and 1, swaps 2 and 3, and is self-inverse |
| QuantumGates.SWAPPermutes | assets/js/quantum-gates.js:42-49 | SWAP fixes basis states 0 and 3, swaps 1 and 2, and is self-inverse |
| QuantumGates.PhaseApply | assets/js/quantum-gates.js:51-56 | the phase gate leaves amplitude 0 alone and multiplies amplitude 1 by (cos θ, sin θ) |
| QuantumEmulation.Emulator.constructor | assets/js/quantum-emulation.js:4 | the emulator starts with no qubits |
| QuantumEmulation.Emulator.CreateQubit | assets/js/quantum-emulation.js:13-18 | a fresh qubit holds the given state (by default [1,0]) and exactly that qubit is appended |
| QuantumEmulation.Apply | assets/js/quantum-emulation.js:20-24 | the new state has one entry per gate row, and entry i is Σⱼ gate[i][j]·state[j] |
| QuantumEmulation.ApplyGate | assets/js/quantum-emulation.js:20-26 | the qubit's state is replaced by the gate applied to the old state |
| QuantumEmulation.Measure | assets/js/quantum-emulation.js:28-34 | the result is the outcome for the draw, and the state collapses to [1,0] for 0 or [0,1] for 1 |
| QuantumEmulation.Outcome | assets/js/quantum-emulation.js:29-30 | a measurement result is 0 or 1 |
| QuantumEmulation.Collapsed | assets/js/quantum-emulation.js:31 | the state left behind by a measurement has two amplitudes |
| QuantumEmulation.Hadamard | assets/js/quantum-emulation.js:37-40 | the example's Hadamard matrix is 2×2 |
| QuantumEmulation.OutcomeZeroIff | assets/js/quantum-emulation.js:29-30 | the result is 0 iff the draw is below state[0]², and 1 otherwise |
| QuantumEmulation.BasisStatesAreSharp | assets/js/quantum-emulation.js:29-31 | for draws in [0,1), measuring [1,0] gives 0 and measuring [0,1] gives 1 |
| QuantumEmulation.RemeasureRepeats | assets/js/quantum-emulation.js:29-31 | measuring a collapsed qubit again repeats the result |
| QuantumEmulation.HadamardOnZero | assets/js/quantum-emulation.js:37-43 | the Hadamard matrix applied to [1,0] gives [s,s] |
| QuantumEmulation.RunExample | assets/js/quantum-emulation.js:42-44 | the example run gives 0 exactly when the draw is below ½ |
| QuantumEmulation.ApplyAgreesWithMatVec | assets/js/quantum-emulation.js:20-24 | the emulator's real matrix product agrees with `QuantumGates.MatVec` on the embedded complex values |
| QuantumWorker.Transform | assets/js/quantum-worker.js:11-17 | a posted qubit keeps every other field and carries H·state |
| QuantumWorker.HadamardGate | assets/js/quantum-worker.js:6-9 | the worker's matrix is the same Hadamard matrix as the emulator's example |
| QuantumWorker.OnMessage | assets/js/quantum-worker.js:2-19 | the posted list has the input's length and order, and entry i is qubit i transformed |
| QuantumWorker.AlgorithmIgnored | assets/js/quantum-worker.js:3 | the `algorithm` field has no effect on the posted qubits |
| QuantumWorker.HadamardTwice | assets/js/quantum-worker.js:6-15 | applying the worker's matrix twice to a two-amplitude state restores it |
| QuantumWorker.TwoPassesRestore | assets/js/quantum-worker.js:2-19 | posting the worker's output back through it returns the original qubits |
| BinaryIndex.ToBinary | assets/js/entanglement-manager.js:43 | `index.toString(2)` is a non-empty string of '0' and '1' |
| BinaryIndex.PadStart | assets/js/entanglement-manager.js:43 | `padStart(n,'0')` has length max(len, n), fill characters on the left, and the string after them |
| BinaryIndex.ToBinaryShort | assets/js/entanglement-manager.js:43 | the numeral of k has just as many digits as k needs: k < 2^len, and 2^(len−1) ≤ k when len > 1 |
| BinaryIndex.ToBinaryFits | assets/js/entanglement-manager.js:43 | for k < 2^n the numeral has at most n digits, so padding never truncates |
| BinaryIndex.DigitAt | assets/js/entanglement-manager.js:43-44 | digit j from the right of the numeral is bit j of k |
| BinaryIndex.HighBitsZero | assets/js/entanglement-manager.js:43 | bits at or above the numeral's length are 0 |
| BinaryIndex.PaddedDigit | assets/js/entanglement-manager.js:43-68 | for k < 2^n, the padded string has length n and character t is the MSB-first bit t of k |
| BinaryIndex.Log2OfPow2 | assets/js/entanglement-manager.js:63 | `Math.log2` of 2^n is n |
| BinaryIndex.ParseDigit | assets/js/entanglement-manager.js:69 | `parseInt` of '0' or '1' inverts the digit character |
| BinaryIndex.BitWitness | assets/js/entanglement-manager.js:43-44 | bit j is 1 for 2^j and 0 for 0, so both outcomes occur |
| BinaryIndex.PairBits | assets/js/entanglement-manager.js:43-44 | for two qubits, bit 0 of k is k/2 and bit 1 is k%2 |
| Entanglement.QubitRegistry.constructor | assets/js/entanglement-manager.js:18 | the registry holds the qubits it is given |
| Entanglement.BellState | assets/js/entanglement-manager.js:23-32 | the Bell state for n qubits has length 2^n, s at index 0 and at the last index, and 0 everywhere else |
| Entanglement.Norm2Append | assets/js/entanglement-manager.js:50 | the squared norm of a concatenation is the sum of the parts' squared norms |
| Entanglement.Norm2AtLeastEntry | assets/js/entanglement-manager.js:50 | the squared norm bounds every entry's magnitude² |
| Entanglement.BellStateNormalised | assets/js/entanglement-manager.js:23-32 | with s = 1/√2 the Bell state has squared norm 1 (½ for n = 0, where both ends coincide) |
| Entanglement.IndexOf | assets/js/entanglement-manager.js:39 | `indexOf` is −1 iff the id is absent, and otherwise the first position holding it |
| Entanglement.Collapse | assets/js/entanglement-manager.js:42-47 | the collapsed vector has the group state's length |
| Entanglement.CollapseByBit | assets/js/entanglement-manager.js:42-47 | entry k is 1 iff the MSB-first bit `targetIndex` of k equals the measured bit, and 0 otherwise |
| Entanglement.CollapseKeepsSome | assets/js/entanglement-manager.js:42-47 | for a measured bit 0 or 1 at least one entry survives, so the squared norm is at least 1 |
| Entanglement.Normalize | assets/js/entanglement-manager.js:51 | normalising keeps the length and divides each entry by the norm |
| Entanglement.NormalizeKeepsZeros | assets/js/entanglement-manager.js:51 | an entry is 0 after normalising iff it was 0 before |
| Entanglement.NormalizeScalesNorm2 | assets/js/entanglement-manager.js:50-51 | normalising by `norm` divides the squared norm by norm² |
| Entanglement.NormalizedIsUnit | assets/js/entanglement-manager.js:49-52 | with norm = √(Σ|c|²) > 0, the normalised state has squared norm exactly 1 |
| Entanglement.ReducedState | assets/js/entanglement-manager.js:62-74 | the reduced state has length 2 |
| Entanglement.MarginalsPartition | assets/js/entanglement-manager.js:66-71 | the two accumulators together sum every amplitude seen so far |
| Entanglement.ReducedStatePartitions | assets/js/entanglement-manager.js:62-74 | entries 0 and 1 of the reduced state add up to the sum of all amplitudes |
| Entanglement.MarginalStep | assets/js/entanglement-manager.js:66-71 | one `forEach` step adds the amplitude to the accumulator of its bit and leaves the other alone |
| Entanglement.CalculateReducedState | assets/js/entanglement-manager.js:62-74 | the accumulator loop returns the reduced state: entry b sums the amplitudes whose bit `qubitIndex` is b |
| Entanglement.ReducedStateOfSecond | assets/js/entanglement-manager.js:62-74 | for two qubits, the reduced state of qubit 1 is (v0+v2, v1+v3) |
| Entanglement.CollapseOfFirst | assets/js/entanglement-manager.js:42-47 | measuring qubit 0 of a pair keeps exactly the two basis states with that first bit |
| Entanglement.PartnerOfCollapsedPair | assets/js/entanglement-manager.js:42-59 | after qubit 0 of a pair is measured and normalised, the reduced state of qubit 1 is as the code computes |
| Entanglement.TagAllTagsListed | assets/js/entanglement-manager.js:17-20 | tagging keeps the registry's keys, tags every listed qubit with the group id and leaves the others unchanged |
| Entanglement.TagAll | assets/js/entanglement-manager.js:17-20 | tagging the group's qubits keeps the registry's key set |
| Entanglement.UpdateMembersFrame | assets/js/entanglement-manager.js:54-59 | the member update keeps the registry's keys and records only a missing-qubit error |
| Entanglement.UpdateMembers | assets/js/entanglement-manager.js:54-59 | a registered measured qubit keeps its entry unchanged |
| Entanglement.UpdateMembersSucceed | assets/js/entanglement-manager.js:54-59 | when every member exists, the member update raises no error |
| Entanglement.UpdateMembersStopsAtError | assets/js/entanglement-manager.js:54-59 | once a member is missing, later steps change nothing, as after a thrown TypeError |
| Entanglement.UpdateMembersKeepsOthers | assets/js/entanglement-manager.js:54-59 | the measured qubit and qubits not yet visited keep their state |
| Entanglement.UpdateMembersSetsReduced | assets/js/entanglement-manager.js:54-59 | every other member, at its last occurrence, receives the reduced state for its own position |
| Entanglement.UpdateMemberStates | assets/js/entanglement-manager.js:54-59 | the `forEach` loop leaves the registry equal to the member-update function of the old registry |
| Entanglement.ReducedStates | assets/js/entanglement-manager.js:57 | there is one reduced state per register position |
| Entanglement.UntaggedIsNoOp | assets/js/entanglement-manager.js:35-36 | `updateEntangledState` on an untagged qubit changes nothing and returns normally |
| Entanglement.UpdateSpecTagged | assets/js/entanglement-manager.js:35-59 | for a tagged qubit the group's state is replaced by the normalised collapse, and the members are updated |
| Entanglement.MeasuredGroupCollapses | assets/js/entanglement-manager.js:42-52 | after the update, entry k of the group is non-zero iff bit `targetIndex` of k is the measured bit, and the state has squared norm 1 |
| Entanglement.MeasuredGroupUpdatesMembers | assets/js/entanglement-manager.js:54-59 | every other member qubit is given the reduced state of the normalised group at its position |
| Entanglement.EntanglementManager.constructor | assets/js/entanglement-manager.js:5-8 | the manager starts with no groups |
| Entanglement.EntanglementManager.EntangleQubits | assets/js/entanglement-manager.js:10-21 | the group is stored under the fresh id with the Bell state and the ids; tagging succeeds iff every id exists; when it fails, the first missing id is reported |
| Entanglement.EntanglementManager.UpdateEntangledState | assets/js/entanglement-manager.js:34-60 | the groups and the registry become the update specification's outcome |
| Entanglement.EntanglementManager.CollapseGroup | assets/js/entanglement-manager.js:38-52 | the group's state becomes the normalised collapse, or the group is left alone when the norm is 0 |
| Entanglement.EntanglementManager.BreakEntanglement | assets/js/entanglement-manager.js:76-82 | an untagged qubit changes nothing; a tagged one has its group deleted and only its own tag cleared |
| Entanglement.StoredGroupAsWritten | assets/js/entanglement-manager.js:11-15 | as written, the stored group `state` is the whole Bell record |
| Entanglement.CollapseAsWritten | assets/js/entanglement-manager.js:42 | as written, `group.state.map` succeeds iff the stored state is an array |
| Entanglement.UpdateAsWrittenThrows | assets/js/entanglement-manager.js:11-42 | as written, updating any entangled qubit throws at `group.state.map` |
| Entanglement.NormalizeAsWritten | assets/js/entanglement-manager.js:51 | as written, a normalisation that does not throw returns the state unchanged |
| Entanglement.NormalizeAsWrittenThrows | assets/js/entanglement-manager.js:51 | as written, normalising throws iff the state is non-empty, because `c.divide` is not a function |
| QuantumSystems.InitialQubits | assets/js/quantum-system.js:20-28 | initialising creates keys 0..n−1, each with its superposition and phase and no partner |
| QuantumSystems.InitialQubitsUnlinked | assets/js/quantum-system.js:20-28 | a key exists iff it is below n, and every new qubit is unentangled |
| QuantumSystems.Link | assets/js/quantum-system.js:42-43 | linking points each qubit at the other and changes nothing else |
| QuantumSystems.LinkSymmetric | assets/js/quantum-system.js:38-47 | the link does not depend on argument order |
| QuantumSystems.MeasuredBit | assets/js/quantum-system.js:54-55 | the measured bit is 0 or 1 |
| QuantumSystems.MeasuredBitIff | assets/js/quantum-system.js:54-55 | the result is 1 iff the draw is at most re²+im² |
| QuantumSystems.AfterMeasurement | assets/js/quantum-system.js:57-63 | measuring keeps the keys, every link and every phase |
| QuantumSystems.MeasurementSetsPartner | assets/js/quantum-system.js:57-63 | the partner becomes (0,1) on 1 and (1,0) on 0; the measured qubit and all others are unchanged |
| QuantumSystems.UnlinkedMeasurementChangesNothing | assets/js/quantum-system.js:57-63 | measuring a qubit with no existing partner leaves the map unchanged |
| QuantumSystems.NextPhase | assets/js/quantum-system.js:96 | the next phase stays in [0,360) and wraps from 359 to 0 |
| QuantumSystems.PhaseAfter | assets/js/quantum-system.js:96 | the phase stays in [0,360) across any number of updates |
| QuantumSystems.PhaseAfterIsModular | assets/js/quantum-system.js:96 | after k updates the phase is (phase + k) mod 360 |
| QuantumSystems.PhaseFullTurn | assets/js/quantum-system.js:96 | 360 updates bring the phase back to where it was |
| QuantumSystems.QuantumSystem.constructor | assets/js/quantum-system.js:3-9 | the system starts empty, with phase 0 and amplitude 1 |
| QuantumSystems.QuantumSystem.InitializeQubits | assets/js/quantum-system.js:20-28 | the loop adds exactly the initial qubits and changes no other field |
| QuantumSystems.QuantumSystem.EntangleQubits | assets/js/quantum-system.js:38-47 | both qubits are linked and the pair recorded iff both exist; otherwise nothing changes |
| QuantumSystems.QuantumSystem.MeasureQubit | assets/js/quantum-system.js:49-66 | an unknown id gives no result and no change; a known one gives the measured bit and updates its partner |
| QuantumSystems.Rem360 | assets/js/quantum-system.js:103 | JavaScript's `% 360`: the remainder differs from x by whole turns, lies strictly between −360 and 360, keeps the sign of x, and leaves a value already inside that range unchanged |
| QuantumSystems.TickQubit | assets/js/quantum-system.js:100-117 | one qubit's step keeps its link, moves its phase by the rotation draw modulo 360, and keeps a non-negative phase in [0,360) |
| QuantumSystems.TickMagnitudePositive | assets/js/quantum-system.js:105-113 | with noise below 0.05 in size, the noisy cosine and sine are never both 0, so the magnitude divided by is positive |
| QuantumSystems.TickNormalises | assets/js/quantum-system.js:105-116 | after the step the qubit's state is a unit vector pointing along (cos + noise, sin + noise) |
| QuantumSystems.QuantumSystem.Update | assets/js/quantum-system.js:88-117 | every qubit takes its own step, the phase advances modulo 360, the amplitude is 0.8 + 0.2·sin and lies in [0.6,1], and the links are unchanged |
| CardGame.Label | docs/QgamingX/QgamesX/assets/js/scripts.js:10-15 | a card label is the value's text followed by the suit symbol |
| CardGame.LabelInjective | docs/QgamingX/QgamesX/assets/js/scripts.js:10-15 | distinct (value, suit) pairs give distinct labels |
| CardGame.FreshDeck | docs/QgamingX/QgamesX/assets/js/scripts.js:9-18 | the fresh deck has 52 cards in suit-major order |
| CardGame.FreshDeckDistinct | docs/QgamingX/QgamesX/assets/js/scripts.js:9-18 | the 52 cards are pairwise distinct |
| CardGame.Pick | docs/QgamingX/QgamesX/assets/js/scripts.js:23 | `Math.floor(r·(i+1))` lies in [0,i] for r in [0,1) |
| CardGame.Swap | docs/QgamingX/QgamesX/assets/js/scripts.js:24 | the swap exchanges positions i and j and keeps every other card |
| CardGame.SwapPermutes | docs/QgamingX/QgamesX/assets/js/scripts.js:24 | a swap is a permutation |
| CardGame.ShuffleFrom | docs/QgamingX/QgamesX/assets/js/scripts.js:21-26 | the shuffle keeps the deck's length |
| CardGame.ShufflePermutes | docs/QgamingX/QgamesX/assets/js/scripts.js:21-26 | the shuffled deck is a permutation of the deck |
| CardGame.HandUpTo | docs/QgamingX/QgamesX/assets/js/scripts.js:31-33 | hand h after the first `upto` cards holds cards h, h+4, h+8, … in order |
| CardGame.HandStep | docs/QgamingX/QgamesX/assets/js/scripts.js:32 | one more card extends only hand i % 4 |
| CardGame.Deal | docs/QgamingX/QgamesX/assets/js/scripts.js:29-34 | dealing gives 4 hands of 13, card i going to hand i % 4 |
| CardGame.HandsPartitionPrefix | docs/QgamingX/QgamesX/assets/js/scripts.js:31-33 | the hands so far together hold exactly the cards dealt so far |
| CardGame.DealPartitions | docs/QgamingX/QgamesX/assets/js/scripts.js:29-34 | the four hands together are the multiset of the first 52 cards |
| CardGame.Splice | docs/QgamingX/QgamesX/assets/js/scripts.js:92 | `splice(cardIndex,1)[0]` removes a card iff the (possibly negative) index lands in the hand |
| CardGame.SpliceStartCases | docs/QgamingX/QgamesX/assets/js/scripts.js:92 | `splice`'s start is the index itself when in range, length + index for a negative index, and is clamped to 0 and to the length |
| CardGame.SpliceRemovesOne | docs/QgamingX/QgamesX/assets/js/scripts.js:92 | a splice that lands in the hand returns `hand[start]` and keeps the cards before it and after it in order; one out of range removes nothing |
| CardGame.CardTable.constructor | docs/QgamingX/QgamesX/assets/js/scripts.js:3-4 | the table starts with an empty deck and four empty hands; the page then calls `initializeDeck()` once at load (scripts.js:98), which is `InitializeDeck` |
| CardGame.CardTable.InitializeDeck | docs/QgamingX/QgamesX/assets/js/scripts.js:9-18 | the nested loop leaves the fresh deck and does not touch the hands |
| CardGame.CardTable.ShuffleDeck | docs/QgamingX/QgamesX/assets/js/scripts.js:21-26 | the in-place swap loop gives the shuffle of the old deck, a permutation of it |
| CardGame.CardTable.DealCards | docs/QgamingX/QgamesX/assets/js/scripts.js:29-34 | the loop leaves the deck alone and the hands equal to the deal |
| CardGame.CardTable.PlayCard | docs/QgamingX/QgamesX/assets/js/scripts.js:91-95 | the played card is the one spliced out; only that player's hand changes |
| CardGame.CardTable.StartGame | docs/QgamingX/QgamesX/assets/js/scripts.js:49-55 | the deck is rebuilt, shuffled and dealt, and the hands partition it |
| ObstacleGame.LevelY | assets/js/game.js:54 | level 0 is at the bottom, ½ at mid-height and 1 at the top |
| ObstacleGame.Abs | assets/js/game.js:103 | `Math.abs` is non-negative and equals v or −v |
| ObstacleGame.Shifted | assets/js/game.js:77-78 | every obstacle moves 5 to the left and nothing else changes |
| ObstacleGame.OnScreen | assets/js/game.js:96-97 | the kept obstacles are exactly those with x > 0 |
| ObstacleGame.Moved | assets/js/game.js:76-98 | no more obstacles than before, all on screen, and every obstacle with x > 5 is kept, shifted 5 left |
| ObstacleGame.MovedKeepsExactly | assets/js/game.js:76-98 | after a move every kept obstacle is on screen, and an obstacle survives iff its x was above 5 |
| ObstacleGame.KeysKeepLevel | assets/js/game.js:114-118 | any sequence of arrow keys keeps the player in {0, ½, 1} |
| ObstacleGame.HitNeedsSameLevel | assets/js/game.js:100-108 | an obstacle can only hit a player on its own level |
| ObstacleGame.ObstacleGame.constructor | assets/js/game.js:2-5 | the game starts stopped, at level ½, with no obstacles |
| ObstacleGame.ObstacleGame.StartGame | assets/js/game.js:7-20 | starting resets the level to ½, clears the obstacles and sets running |
| ObstacleGame.ObstacleGame.EndGame | assets/js/game.js:22-27 | ending clears running and keeps the level and the obstacles |
| ObstacleGame.ObstacleGame.OnKeyDown | assets/js/game.js:111-119 | arrow keys move the level by ½ only inside [0,1] and only while running; other keys change nothing |
| ObstacleGame.ObstacleGame.GenerateObstacle | assets/js/game.js:67-74 | a new obstacle at the right edge has level 0 or 1 and the y of that level |
| ObstacleGame.ObstacleGame.MoveObstacles | assets/js/game.js:76-98 | the loop leaves the moved list: shifted left by 5, with those off screen dropped |
| ObstacleGame.ObstacleGame.CheckCollision | assets/js/game.js:100-108 | the result is true iff some obstacle is within 15 of x = 50 and of the player's y |
| ObstacleGame.ObstacleGame.UpdateGame | assets/js/game.js:29-50 | nothing happens when stopped; otherwise obstacles are spawned and moved, and a hit ends the game |
| Qcli.TrimStart | docs/QgamingX/qgaming-implementation.js:46 | the result is a suffix of the input that does not start with whitespace, and everything removed is whitespace |
| Qcli.TrimEnd | docs/QgamingX/qgaming-implementation.js:46 | the result is a prefix of the input that does not end with whitespace, and everything removed is whitespace |
| Qcli.LeadingSpaces | docs/QgamingX/qgaming-implementation.js:46 | the count of leading whitespace: those characters are whitespace and the next one is not |
| Qcli.TrailingSpaces | docs/QgamingX/qgaming-implementation.js:46 | the count of trailing whitespace: those characters are whitespace and the one before them is not |
| Qcli.Trim | docs/QgamingX/qgaming-implementation.js:46 | `trim()` is a slice of the input that neither starts nor ends with whitespace, with only whitespace cut from either side; it is empty iff the input is all whitespace |
| Qcli.TrimKeeps | docs/QgamingX/qgaming-implementation.js:46 | a string with no outer whitespace trims to itself |
| Qcli.LeadingRun | docs/QgamingX/qgaming-implementation.js:46 | the leading run holds no whitespace and stops at whitespace or the end |
| Qcli.Words | docs/QgamingX/qgaming-implementation.js:46 | splitting a trimmed line on whitespace runs gives non-empty words without whitespace |
| Qcli.WordsOfWord | docs/QgamingX/qgaming-implementation.js:46 | a single word splits into itself |
| Qcli.WordsOfBlank | docs/QgamingX/qgaming-implementation.js:46 | a blank string has no words |
| Qcli.LeadingRunAppend | docs/QgamingX/qgaming-implementation.js:46 | the leading non-space run of x + y ends inside x or continues into y |
| Qcli.WordsSplitAtSpace | docs/QgamingX/qgaming-implementation.js:46 | every whitespace character is a word boundary: the words of a + c + b are the words of a followed by those of b |
| Qcli.ConcatWords | docs/QgamingX/qgaming-implementation.js:46 | the words run together are exactly the input's non-whitespace characters, in order |
| Qcli.WordsOfTrim | docs/QgamingX/qgaming-implementation.js:46 | trimming does not change the words |
| Qcli.Tokenize | docs/QgamingX/qgaming-implementation.js:46 | the token list is never empty; it is [""] iff the input is blank, and otherwise it is the words of the input |
| Qcli.WordsOfJoin | docs/QgamingX/qgaming-implementation.js:46 | splitting words joined by single spaces gives the words back |
| Qcli.ParseInput | docs/QgamingX/qgaming-implementation.js:46 | the command followed by the args is exactly the token list |
| Qcli.ParseRoundTrip | docs/QgamingX/qgaming-implementation.js:46 | a command line written as words separated by spaces parses back to that command and those args |
| Qcli.VerifyQuantumCapabilities | docs/QgamingX/qgaming-implementation.js:102-117 | the check fails iff the system level 1 is below the requested level, and reports both levels |
| Qcli.FormatResult | docs/QgamingX/qgaming-implementation.js:138-150 | the result is bare iff the level is 0, and otherwise wrapped with its level, coherence and timestamp |
| Qcli.FormatQuantumResult | docs/QgamingX/qgaming-implementation.js:155-165 | a quantum result is always wrapped |
| Qcli.ExecuteQuantum | docs/QgamingX/qgaming-implementation.js:74-97 | a command whose level check fails gets the level error; once it passes, the command succeeds iff its action returns, a success carries the action's value wrapped with coherence and timestamp, and a failure is "Error executing quantum command" with the action's message |
| Qcli.ExecuteClassical | docs/QgamingX/qgaming-implementation.js:58-68 | every failure of a classical command is wrapped as "Error executing command" |
| Qcli.CommandLine.Execute | docs/QgamingX/qgaming-implementation.js:45-69 | "Unknown command" exactly when the command is in neither registry; a success is a quantum result iff the command is registered as quantum; a wrapped action failure comes only from a classical command |
| Qcli.CommandLine.constructor | docs/QgamingX/qgaming-implementation.js:1-6 | all three registries start empty |
| Qcli.CommandLine.RegisterCommand | docs/QgamingX/qgaming-implementation.js:10-22 | a level outside {0, ½, 1} fails and changes no map; a valid one maps the command to its action and level, overwriting any earlier entry |
| Qcli.CommandLine.RegisterQuantumCommand | docs/QgamingX/qgaming-implementation.js:27-40 | the quantum registry maps the command to its action and requirements; the classical maps are untouched |
| Qcli.QuantumFirst | docs/QgamingX/qgaming-implementation.js:49-51 | a command in the quantum registry runs as a quantum command, even when also registered classically |
| Qcli.QuantumRunsAction | docs/QgamingX/qgaming-implementation.js:49-97 | a registered quantum command that passes its level check returns its action's wrapped value, or fails with the action's message |
| Qcli.UnknownCommandRejected | docs/QgamingX/qgaming-implementation.js:54-56 | a command in neither registry fails with "Unknown command" and its name |
| Qcli.ClassicalRunsAction | docs/QgamingX/qgaming-implementation.js:58-68 | a registered classical command returns its action's value formatted at its level, or the wrapped failure of the action |
| Qcli.QuantumLevelTooHigh | docs/QgamingX/qgaming-implementation.js:102-108 | a quantum command that needs a level above 1 always fails its check |
| MediaPlayer.ExtensionStart | developers/OS/Qintergrate/quantum-media-player.js:62 | the extension starts within the name |
| MediaPlayer.Extension | developers/OS/Qintergrate/quantum-media-player.js:62 | the extension is a suffix of the name without a '.', preceded by a '.' unless it is the whole name |
| MediaPlayer.ExtensionIsLastPart | developers/OS/Qintergrate/quantum-media-player.js:62 | the extension contains no '.' and, when it is not the whole name, follows a '.' |
| MediaPlayer.ExtensionAfterDot | developers/OS/Qintergrate/quantum-media-player.js:62 | the extension of base + "." + ext is ext, for ext without a dot |
| MediaPlayer.ExtensionWithoutDot | developers/OS/Qintergrate/quantum-media-player.js:62 | a name with no '.' is its own extension |
| MediaPlayer.LowerChar | developers/OS/Qintergrate/quantum-media-player.js:62 | lower-casing maps 'A'–'Z' to 'a'–'z' and keeps every other character |
| MediaPlayer.Lower | developers/OS/Qintergrate/quantum-media-player.js:62 | `toLowerCase` keeps the length and lower-cases each character |
| MediaPlayer.ReadTypeMap | developers/OS/Qintergrate/quantum-media-player.js:62-73 | a read of the object literal finds an own entry iff the key is listed, and an inherited member iff it is an `Object.prototype` name |
| MediaPlayer.DetectFileTypeAsWritten | developers/OS/Qintergrate/quantum-media-player.js:61-75 | as written, `typeMap[ext]`, falling back to "unknown" only on a falsy read, never comes back empty-handed |
| MediaPlayer.ConstructorExtensionIsInherited | developers/OS/Qintergrate/quantum-media-player.js:62-73 | as written, "x.constructor" is given the inherited `constructor` function instead of "unknown" |
| MediaPlayer.DetectFileType | developers/OS/Qintergrate/quantum-media-player.js:61-75 | a listed lower-cased extension gives its table entry, and any other gives "unknown" |
| MediaPlayer.DetectFileTypeCases | developers/OS/Qintergrate/quantum-media-player.js:61-75 | the type is one of qmp3, qmp4, qgame and unknown, and matches the code as written for every name that is not inherited |
| MediaPlayer.DetectFileTypeTable | developers/OS/Qintergrate/quantum-media-player.js:63-73 | mp3/wav give qmp3; mp4/mov/avi/webm give qmp4; exe/zip give qgame; any other extension gives unknown, in any letter case |
| MediaPlayer.ElementFor | developers/OS/Qintergrate/quantum-media-player.js:140-166 | the audio element is driven iff the type is qmp3, and the video element iff it is qmp4 |
| MediaPlayer.PrepareMediaPlayback | developers/OS/Qintergrate/quantum-media-player.js:108-130 | qmp3 enables audio, qmp4 enables video and qgame is a game file |
| MediaPlayer.EnabledIffPlayable | developers/OS/Qintergrate/quantum-media-player.js:108-166 | a media element is prepared iff `play`/`pause` have an element to drive |
| MediaPlayer.MediaPlayer.constructor | developers/OS/Qintergrate/quantum-media-player.js:32-38 | the player starts unloaded, paused, with entropy 0 and no file type |
| MediaPlayer.MediaPlayer.Play | developers/OS/Qintergrate/quantum-media-player.js:140-152 | play drives the type's element and sets playing; no other field changes |
| MediaPlayer.MediaPlayer.Pause | developers/OS/Qintergrate/quantum-media-player.js:154-166 | pause drives the type's element and clears playing; no other field changes |
| MediaPlayer.MediaPlayer.TogglePlayback | developers/OS/Qintergrate/quantum-media-player.js:132-138 | toggling negates playing and changes no other field |
| MediaPlayer.MediaPlayer.LoadFile | developers/OS/Qintergrate/quantum-media-player.js:76-79 | loading stores the file type given by the corrected detection (`DetectFileType`; see Findings) and clears loaded |
| Optimizer.PhaseOf | developers/OS/Qintergrate/quantum-optimizer.js:28-48 | the phase is Mapping below 0.1, Processing below 0.5, Integration below 1 and Reset from 1 on |
| Optimizer.Step | developers/OS/Qintergrate/quantum-optimizer.js:26-53 | one update keeps the metrics in range, never raises entropy or lowers optimisation, resets state 1 to 0.1, and changes the ratio only while integrating |
| Optimizer.Run | developers/OS/Qintergrate/quantum-optimizer.js:26-53 | any number of updates keeps the metrics in range |
| Optimizer.EntropyNeverRises | developers/OS/Qintergrate/quantum-optimizer.js:31-52 | over any run, entropy never rises and optimisation never falls |
| Optimizer.QuantumOptimizer.constructor | developers/OS/Qintergrate/quantum-optimizer.js:2-14 | the optimizer starts at state 0, entropy 1, optimisation 0, ratio 1, and running |
| Optimizer.QuantumOptimizer.UpdateState | developers/OS/Qintergrate/quantum-optimizer.js:26-53 | the fields become one step of the metrics |
| Optimizer.QuantumOptimizer.Start | developers/OS/Qintergrate/quantum-optimizer.js:192-194 | start sets running and keeps the metrics |
| Optimizer.QuantumOptimizer.Stop | developers/OS/Qintergrate/quantum-optimizer.js:196-198 | stop clears running and keeps the metrics |
| Optimizer.QuantumOptimizer.SimulateCompression | developers/OS/Qintergrate/quantum-optimizer.js:163-190 | when running, the loop reports 50 ratios, ratio i being 1 + (base − 1)(i + 1)/50 |
| Optimizer.BaseCompressionRatio | developers/OS/Qintergrate/quantum-optimizer.js:200-211 | an unknown type gives 2; qmp3, qmp4 and qgame fall in [3,5), [4,7) and [5,9) |
| Optimizer.CompressionSchedule | developers/OS/Qintergrate/quantum-optimizer.js:167-171 | the ratios rise strictly, stay above 1, and equal the base at the last step |
| Optimizer.CompressionRatio | developers/OS/Qintergrate/quantum-optimizer.js:167-171 | for a base ≥ 1 every ratio lies in [1, base], and the last one is the base |
| Optimizer.Progress | developers/OS/Qintergrate/quantum-optimizer.js:167-171 | the fraction (i + 1)/50 is positive, at most 1 within the run, and 1 at the last step |
| Optimizer.Pow1024 | developers/OS/Qintergrate/quantum-optimizer.js:213-222 | every unit factor 1024^i is at least 1 |
| Optimizer.FormatSize | developers/OS/Qintergrate/quantum-optimizer.js:213-222 | size·1024^i = bytes for the unit index i ≤ 3; the size is below 1024 unless the unit is GB; below 1024 bytes the unit is B and the size is unchanged |
| Optimizer.ScaleDown | developers/OS/Qintergrate/quantum-optimizer.js:217-219 | one division by 1024 moves one unit up and keeps size·factor |
| QgamingComponent.IndexOf | docs/QgamingX/qgaming-x-component.tsx:59 | `indexOf` is −1 iff the value is absent, and otherwise its first position |
| QgamingComponent.NextState | docs/QgamingX/qgaming-x-component.tsx:57-62 | the next state is always one of the listed states |
| QgamingComponent.NextStateCycles | docs/QgamingX/qgaming-x-component.tsx:57-62 | each state steps to its successor in [0, .25, .35, .5, .6, .8, 1], and 1 steps to 0 |
| QgamingComponent.NextOfUnlisted | docs/QgamingX/qgaming-x-component.tsx:59-61 | a value not in the list steps to 0 |
| QgamingComponent.IterateListed | docs/QgamingX/qgaming-x-component.tsx:57-62 | after at least one tick, from any value, the state is one of the listed states |
| QgamingComponent.IterateWalks | docs/QgamingX/qgaming-x-component.tsx:57-62 | n steps from state k reach state (k + n) mod 7 |
| QgamingComponent.FullRoundReturns | docs/QgamingX/qgaming-x-component.tsx:57-62 | whole rounds of 7 steps return to the starting state |
| QgamingComponent.Flags | docs/QgamingX/qgaming-x-component.tsx:70-76 | each flag is true iff the state is at least its threshold |
| QgamingComponent.FlagsNested | docs/QgamingX/qgaming-x-component.tsx:70-76 | integration ⇒ inputs ⇒ ai ⇒ graphics ⇒ mapping |
| QgamingComponent.FlagsAlongCycle | docs/QgamingX/qgaming-x-component.tsx:57-76 | the k-th state of the cycle turns on min(k, 5) flags; state 0 sets none and state 1 sets all |
| Particles.ZkpLevel | pages/features/js/particle.js:23-27 | the level is 0 below 0.33, ½ below 0.66, and 1 from there on |
| Particles.ZkpMonotone | pages/features/js/particle.js:23-27 | the level is monotone in the quantum state and always 0, ½ or 1 |
| Particles.Drain | pages/features/js/particle.js:44 | life drains by 0.01·(1 + ½z), between 0.01 and 0.015 |
| Particles.HarmonyEasing | pages/features/js/particle.js:69 | the harmony easing lies between 0.05 and 0.07 |
| Particles.Particle.constructor | pages/features/js/particle.js:3-21 | a new particle has life 1, mode "normal" and its level, with size, speeds and hue drawn from the configured ranges |
| Particles.Particle.NormalBehavior | pages/features/js/particle.js:47-50 | in normal mode the position moves by speed·(1 + z) |
| Particles.Particle.ChaosBehavior | pages/features/js/particle.js:52-62 | in chaos mode the speeds become cos/sin of the angle times (2 + z) and the position moves by them |
| Particles.Particle.HarmonyBehavior | pages/features/js/particle.js:64-73 | in harmony mode the position eases toward the target by the easing factor |
| Particles.Particle.Update | pages/features/js/particle.js:29-45 | the level is recomputed, the position and speed move as the mode's behaviour says (`Motion`), life strictly decreases by the drain, and size, hue and mode stay |
| Particles.Motion | pages/features/js/particle.js:47-73 | only chaos mode changes the speed, an unknown mode changes nothing, and in chaos mode the position moves by the new speed |
| Particles.MotionKeepsSpeed | pages/features/js/particle.js:29-73 | normal and harmony modes keep the speed, normal mode moves by speed·(1 + z), and a mode no behaviour knows moves nothing |
| Particles.HarmonyMotionCloses | pages/features/js/particle.js:64-73 | in harmony mode each coordinate's gap to the orbit point shrinks to (1 − easing) of what it was |
| Particles.HarmonyClosesGap | pages/features/js/particle.js:71-72 | easing multiplies the distance to the target by 1 − easing |
| Particles.LifeBound | pages/features/js/particle.js:44 | after n updates life has fallen by between 0.01·n and 0.015·n |
| Particles.HundredUpdatesDrainLife | pages/features/js/particle.js:44 | a new particle's life reaches 0 within 100 updates |
| Reals.Min | pages/features/js/QuantumClock.js:80-83 | `Math.min` is the smaller argument |
| Reals.Max | pages/features/js/QuantumClock.js:136-141 | `Math.max` is the larger argument |
| QuantumClocks.Frac | pages/features/js/QuantumClock.js:133-134 | the fractional part lies in [0,1) and differs from x by an integer |
| QuantumClocks.NextQuantumState | pages/features/js/QuantumClock.js:133-134 | (q + 0.1) mod 1 stays in [0,1) and wraps exactly when it reaches 1 |
| QuantumClocks.QuantumAfter | pages/features/js/QuantumClock.js:133-134 | the quantum state stays in [0,1) across any number of updates |
| QuantumClocks.QuantumAfterIsFrac | pages/features/js/QuantumClock.js:133-134 | after k updates the state is the fractional part of q + 0.1·k |
| QuantumClocks.TenUpdatesReturn | pages/features/js/QuantumClock.js:133-134 | ten updates bring the quantum state back to where it was |
| QuantumClocks.Hovered | pages/features/js/QuantumClock.js:80-83 | hovering raises coherence to min(1, c + 0.2) |
| QuantumClocks.Decayed | pages/features/js/QuantumClock.js:136-141 | decay lowers coherence to max(0.5, c − 0.01) |
| QuantumClocks.DecayedTimesIs | pages/features/js/QuantumClock.js:136-141 | k decays give max(0.5, c − 0.01·k) |
| QuantumClocks.FiftyDecaysReachMinimum | pages/features/js/QuantumClock.js:136-141 | from full coherence, 50 decays reach the minimum of 0.5 |
| QuantumClocks.ClockZkp | pages/features/js/QuantumClock.js:106-113 | the clock level is 0, ½ or 1 |
| QuantumClocks.ClockZkpByMinute | pages/features/js/QuantumClock.js:106-113 | (60h + m)/1440 against 0.33 and 0.66 gives 0 up to minute 475, ½ up to 950, and 1 after |
| QuantumClocks.SpawnCount | pages/features/js/QuantumClock.js:157-158 | a spawn produces 1, 2 or 3 particles for levels 0, ½ and 1 |
| QuantumClocks.LiveIndices | pages/features/js/QuantumClock.js:238 | the live positions below n are strictly increasing and each holds a particle with life > 0 |
| QuantumClocks.LiveIndicesComplete | pages/features/js/QuantumClock.js:238 | every position below n whose particle has life > 0 is listed |
| QuantumClocks.AliveStep | pages/features/js/QuantumClock.js:238 | the filter of the first n particles is that of the first n − 1, followed by the n-th if it is alive |
| QuantumClocks.Alive | pages/features/js/QuantumClock.js:238 | the filter never lengthens the list |
| QuantumClocks.AliveInOrder | pages/features/js/QuantumClock.js:238 | survivor i of the filter of the first n particles is the particle at the i-th live position below n, so the survivors keep their order |
| QuantumClocks.AliveMembers | pages/features/js/QuantumClock.js:238 | the filter keeps exactly the particles with life > 0 |
| QuantumClocks.AliveDistinct | pages/features/js/QuantumClock.js:238 | filtering a list without repeats gives a list without repeats |
| QuantumClocks.QuantumClock.constructor | pages/features/js/QuantumClock.js:3-14 | the clock starts at state 0, coherence 1, no particles, mode "normal", not hovered |
| QuantumClocks.QuantumClock.MouseEnter | pages/features/js/QuantumClock.js:78-84 | entering sets hovered and raises coherence |
| QuantumClocks.QuantumClock.MouseLeave | pages/features/js/QuantumClock.js:86-88 | leaving clears hovered and changes nothing else |
| QuantumClocks.QuantumClock.SpawnParticles | pages/features/js/QuantumClock.js:115-124 | the loop appends exactly n new particles at the centre carrying the current state and mode, so no particle is listed twice |
| QuantumClocks.QuantumClock.UpdateClock | pages/features/js/QuantumClock.js:126-160 | the state advances, coherence decays unless hovered, the level follows the time, and particles are only appended |
| QuantumClocks.QuantumClock.SetMode | pages/features/js/QuantumClock.js:94-103 | the mode is set on the clock and on every particle; every other field of the particles and of the clock is unchanged |
| QuantumClocks.QuantumClock.Animate | pages/features/js/QuantumClock.js:232-246 | the dead particles are dropped, the survivors keep their order, and each takes exactly one step (`Stepped`) at the clock's state with its own surroundings |
| QuantumClocks.UpdateAll | pages/features/js/QuantumClock.js:238-243 | each particle of a list without repeats takes the clock's state and exactly one `update()`: its level, position and speed, and life change as one step says, and size, hue and mode stay |
| Protocol.FindFrom | assets/js/protocol.js:24 | the search finds the first occurrence at or after `from`, and reports none only when there is none |
| Protocol.ReplaceFirst | assets/js/protocol.js:24 | `replace` with a string pattern rewrites only the first occurrence, and nothing when there is none |
| Protocol.Route | assets/js/protocol.js:17-25 | the handler is used iff enabled and the href starts with "loqos://"; otherwise the target is the href with its first "loqos://" replaced by "/" |
| Protocol.DisabledRewritesScheme | assets/js/protocol.js:22-25 | when disabled, "loqos://rest" navigates to "/rest" |
| Protocol.PlainLinkUnchanged | assets/js/protocol.js:24 | an href without "loqos://" navigates unchanged |
| Protocol.ReplaceFirstIsFirst | assets/js/protocol.js:24 | only the first "loqos://" is replaced; the rest of the href is kept |
| Protocol.ProtocolNavigator.constructor | assets/js/protocol.js:6 | navigation starts enabled |
| Protocol.ProtocolNavigator.Toggle | assets/js/protocol.js:9-12 | the toggle sets the flag to `checked` |
| Protocol.ProtocolNavigator.Click | assets/js/protocol.js:15-25 | a click routes by the current flag |
| QuantumMarkdown.SplitOn | docs/QgamingX/assets/js/quantumMarkdown.js:129 | `split` always gives at least one piece |
| QuantumMarkdown.SplitHasNoSeparator | docs/QgamingX/assets/js/quantumMarkdown.js:129 | no piece contains the separator |
| QuantumMarkdown.SplitCount | docs/QgamingX/assets/js/quantumMarkdown.js:129 | there is one more piece than separators |
| QuantumMarkdown.SplitJoins | docs/QgamingX/assets/js/quantumMarkdown.js:129 | joining the pieces with the separator gives the text back |
| QuantumMarkdown.QuantumEntanglementMapping | docs/QgamingX/assets/js/quantumMarkdown.js:128-155 | the loop returns the mapping function's entries |
| QuantumMarkdown.ScaleAtIsMultiple | docs/QgamingX/assets/js/quantumMarkdown.js:133-148 | the k-th scale is k·q |
| QuantumMarkdown.StepKeepsSchedule | docs/QgamingX/assets/js/quantumMarkdown.js:142-149 | one step keeps entry j's state equal to j·q and below 0.6 |
| QuantumMarkdown.RunKeepsSchedule | docs/QgamingX/assets/js/quantumMarkdown.js:135-152 | the rest of the loop keeps that schedule |
| QuantumMarkdown.MappingSchedule | docs/QgamingX/assets/js/quantumMarkdown.js:133-151 | entry states are 0, q, 2q, … in order, and each is below 0.6 because the loop stops once the scale reaches 0.6 |
| QuantumMarkdown.Mapping | docs/QgamingX/assets/js/quantumMarkdown.js:128-155 | every entry's quantum state is below 0.6 |
| QuantumMarkdown.ParaLines | docs/QgamingX/assets/js/quantumMarkdown.js:140 | a paragraph of s flushed sentences holds s line breaks |
| QuantumMarkdown.Flush | docs/QgamingX/assets/js/quantumMarkdown.js:136-140 | a sentence is flushed exactly after every fourth word |
| QuantumMarkdown.StepKeepsShape | docs/QgamingX/assets/js/quantumMarkdown.js:136-149 | each word is appended with a trailing space; sentences flush every 4 words and paragraphs every 3 sentences |
| QuantumMarkdown.RunChunks | docs/QgamingX/assets/js/quantumMarkdown.js:135-152 | entry j's paragraph is sentences 3j to 3j+2 of four words each; words of an unfinished final sentence appear in no entry |
| QuantumMarkdown.RunCount | docs/QgamingX/assets/js/quantumMarkdown.js:142-149 | for q ≤ 0 the loop never stops early and pushes ⌈words/12⌉ entries |
| QuantumMarkdown.MappingChunks | docs/QgamingX/assets/js/quantumMarkdown.js:128-155 | for a text without line breaks, each entry's paragraph is the text's words grouped into sentences of 4 and paragraphs of 3 sentences |

## Left out

- The default imports `import Complex from './complex.js'` at `assets/js/entanglement-manager.js:1` and at `assets/js/quantum-gates.js:1` would fail, because `complex.js` has only a named export (`assets/js/complex.js:2`). The model uses the `Complex` they mean.
- `toString` of `Complex` (`assets/js/complex.js:23-25`) is display formatting.
- The `magnitude` of `Complex` is modelled squared (`MagnitudeSquared`), because `Math.sqrt` is not exact on reals.
- The `entangledPairs` map of the entanglement manager is never read or written. It is not part of this model.
- Entanglement.EntanglementManager.UpdateEntangledState: a collapse whose norm is 0 is reported as `ZeroNorm`. This happens only for a measured value other than 0 or 1, or a qubit missing from its group. In the source the division by 0 would produce NaN amplitudes.
- Entanglement.CalculateReducedState requires the state's length to be a power of two and the qubit index to be below its logarithm. For other inputs `Math.log2` gives a fraction, or `bits[qubitIndex]` is undefined, and the source adds into a `NaN` slot.
- Entanglement.EntanglementManager.EntangleQubits takes the fresh group id and s = 1/√2 as parameters (`crypto.randomUUID`, `Math.sqrt`). A missing qubit is reported as an error, and the qubits tagged before it stay tagged, as after the source's TypeError.
- QuantumWorker.Transform requires at least two amplitudes. With fewer, the source reads `undefined` and produces NaN.
- QuantumSystems.QuantumSystem.EntangleQubits records the pair as a tuple, not as the string key "id1-id2". The key's text is not modelled.
- `createSuperposition` and `getSystemState` in `assets/js/quantum-system.js` are randomness or read-outs. `InitializeQubits` takes the superpositions and phases as parameters.
- QuantumSystems.QuantumSystem.Update takes each qubit's rotation and noise draws and the cosine and sine of its new phase as a `QubitTick`. The link between that phase and its cosine and sine is not modelled, only that they lie on the unit circle. The qubits' `forEach` order does not matter, because each qubit's step reads only that qubit. `updateMatrixEffect` is display only.
- CardGame.CardTable.DealCards requires at least 52 cards in the deck. The source pushes `undefined` for a shorter deck, which never happens after `initializeDeck`.
- CardGame.CardTable.PlayCard requires an existing player index. The source throws a TypeError for any other index.
- `setMode`, `setDifficulty` and `renderHands` in the card game are display only.
- In `assets/js/game.js`, the drawing code, the `requestAnimationFrame` and `setInterval` timers, and the canvas are left out.
- Obstacles are values in a sequence, not shared objects. `moveObstacles` mutates each obstacle in place, and no other reference to an obstacle exists.
- The example registrations of the QCLI are left out. So are `verifyEntanglement` and `verifySuperposition`, which always succeed, and the async wrappers.
- `quantumDecode` and its timer (`developers/OS/Qintergrate/quantum-media-player.js:87`, repeated at line 272) are left out.
- MediaPlayer.Lower lower-cases only 'A'–'Z'. JavaScript's `toLowerCase` also folds non-ASCII letters.
- The progress loop, the DOM work and the visualiser of the media player are left out.
- `developers/OS/Qintergrate/quantum-media-player.js:209-392` is a duplicated top-level copy of the class. It is not part of this model.
- Optimizer.QuantumOptimizer.SimulateCompression: the `await` between steps is left out, so the `running` flag cannot change during the loop.
- The rounding of `compressedSize` in the optimizer is left out.
- Optimizer.FormatSize returns the exact value, not the `toFixed(1)` text.
- The clock's hands, its drawing and its coherence meter are left out.
- The particle's trigonometry and the angles of the clock's particles are given as parameters (`Surroundings`, `ParticleDraws`).
- In `docs/QgamingX/assets/js/quantumMarkdown.js`, `fetchMarkdownFiles`, the particle canvas and the wrap-around are left out.
- Numbers are exact reals. The float sums in the markdown scale and the clock state drift from them. Adding 0.1 ten times in doubles gives 0.9999999999999999, not 1.
- QuantumClocks.TenUpdatesReturn holds for exact reals only. With doubles the return is approximate, and the wrap to 0 can come one tick early or late.
- QuantumMarkdown.MappingChunks assumes a text without '\n'. The source's paragraphs then hold exactly the text's words, each followed by a space.
- Particles.Particle.Update, QuantumClocks.QuantumClock.UpdateClock and QuantumEmulation.Measure read `Math.random`, `Math.sin` and `Date.now` through parameters (draws, sines, hours and minutes).

## Findings

| source | as written | input that shows it | evidently intended | confidence | as-written member | corrected member |
|---|---|---|---|---|---|---|
| assets/js/entanglement-manager.js:12-42 | `entangleQubits` stores the whole Bell record `{id, state, qubits}` as the group's `state`, so `group.state.map` in `updateEntangledState` is not a function | entangle qubits [1, 2], then update qubit 1 with measured 0 | the group's `state` is the amplitude array, which is collapsed, normalised and distributed | high (not executed) | Entanglement.UpdateAsWrittenThrows | Entanglement.MeasuredGroupCollapses |
| assets/js/entanglement-manager.js:51 | normalisation calls `c.divide(norm)`, which `Complex` does not define | any non-empty collapsed state, for example [1, 0, 0, 0] with norm 1 | each amplitude divided by the norm, giving squared norm 1 | high (not executed) | Entanglement.NormalizeAsWrittenThrows | Entanglement.NormalizedIsUnit |
| developers/OS/Qintergrate/quantum-media-player.js:62-74 | the lookup `typeMap[extension]`, with "unknown" as fallback, reads inherited members of the object literal | a file named "x.constructor" gets the `Object` constructor function as its type | every extension not in the table maps to "unknown" | high (not executed) | MediaPlayer.ConstructorExtensionIsInherited | MediaPlayer.DetectFileTypeCases |
