/**
 * The emulator of assets/js/quantum-emulation.js. It works on plain real
 * amplitudes: a qubit is an object whose `state` array the gate
 * application and the measurement replace, and the emulator keeps the list
 * of the qubits it created. Logging to the page is left out.
 */
module QuantumEmulation {
  import opened ComplexNumbers
  import QuantumGates

  type RealVector = seq<real>
  type RealMatrix = seq<RealVector>

  class Qubit {
    var state: RealVector

    constructor (state: RealVector)
      ensures this.state == state
    {
      this.state := state;
    }
  }

  class Emulator {
    /** Every qubit created so far, oldest first. */
    var qubits: seq<Qubit>

    constructor ()
      ensures qubits == []
    {
      qubits := [];
    }

    /** `createQubit(state = [1, 0])`: a new qubit, appended to the list. */
    method CreateQubit(state: RealVector := [1.0, 0.0]) returns (q: Qubit)
      modifies this
      ensures fresh(q) && q.state == state
      ensures qubits == old(qubits) + [q]
    {
      q := new Qubit(state);
      qubits := qubits + [q];
    }
  }

  /** Every row of the gate reads only amplitudes the state has. */
  predicate Fits(gate: RealMatrix, state: RealVector)
  {
    forall i :: 0 <= i < |gate| ==> |gate[i]| <= |state|
  }

  /** `row.reduce((sum, value, j) => sum + value * state[j], 0)`. */
  function RowSum(row: RealVector, state: RealVector): real
    requires |row| <= |state|
  {
    if |row| == 0 then 0.0
    else RowSum(row[..|row| - 1], state) + row[|row| - 1] * state[|row| - 1]
  }

  /** `gate.map(row => RowSum(row, state))`: one amplitude per gate row. */
  function Apply(gate: RealMatrix, state: RealVector): (r: RealVector)
    requires Fits(gate, state)
    ensures |r| == |gate|
    ensures forall i :: 0 <= i < |gate| ==> r[i] == RowSum(gate[i], state)
  {
    seq(|gate|, i requires 0 <= i < |gate| => RowSum(gate[i], state))
  }

  /** `applyGate(qubit, gate)`: the qubit's state becomes gate · state. */
  method ApplyGate(q: Qubit, gate: RealMatrix)
    requires Fits(gate, q.state)
    modifies q
    ensures q.state == Apply(gate, old(q.state))
  {
    q.state := Apply(gate, q.state);
  }

  /**
   * The outcome `measure` draws: 0 exactly when the state has a first
   * amplitude and the draw is below its square, otherwise 1 (an empty state
   * compares the draw with `undefined`, which is false).
   */
  function Outcome(state: RealVector, draw: real): (r: nat)
    ensures r <= 1
  {
    if |state| > 0 && draw < state[0] * state[0] then 0 else 1
  }

  /** The basis state a measurement leaves behind. */
  function Collapsed(result: nat): (r: RealVector)
    ensures |r| == 2
  {
    if result == 0 then [1.0, 0.0] else [0.0, 1.0]
  }

  /** `measure(qubit)` with `Math.random()` given as `draw`. */
  method Measure(q: Qubit, draw: real) returns (result: nat)
    modifies q
    ensures result == Outcome(old(q.state), draw)
    ensures result <= 1 && q.state == Collapsed(result)
  {
    var amplitudes := q.state;
    var probabilities := seq(|amplitudes|, i requires 0 <= i < |amplitudes| => amplitudes[i] * amplitudes[i]);
    result := if |probabilities| > 0 && draw < probabilities[0] then 0 else 1;
    q.state := if result == 0 then [1.0, 0.0] else [0.0, 1.0];
  }

  /** The outcome is 0 if and only if the draw falls below |state[0]|². */
  lemma OutcomeZeroIff(state: RealVector, draw: real)
    requires |state| > 0
    ensures Outcome(state, draw) == 0 <==> draw < state[0] * state[0]
    ensures Outcome(state, draw) == 1 <==> draw >= state[0] * state[0]
  {
  }

  /** For draws in [0, 1), measuring [1, 0] gives 0 and measuring [0, 1] gives 1. */
  lemma BasisStatesAreSharp(draw: real)
    requires 0.0 <= draw < 1.0
    ensures Outcome(Collapsed(0), draw) == 0
    ensures Outcome(Collapsed(1), draw) == 1
  {
  }

  /** Measuring a collapsed qubit again, with any draw in [0, 1), repeats the result. */
  lemma RemeasureRepeats(result: nat, draw: real)
    requires result <= 1 && 0.0 <= draw < 1.0
    ensures Outcome(Collapsed(result), draw) == result
  {
    BasisStatesAreSharp(draw);
  }

  /** `hadamardGate`: 1/√2 and −1/√2 written as s and −s. */
  function Hadamard(s: real): (m: RealMatrix)
    ensures |m| == 2 && |m[0]| == 2 && |m[1]| == 2
  {
    [[s, s], [s, -s]]
  }

  lemma RowSum2(row: RealVector, state: RealVector)
    requires |row| == 2 <= |state|
    ensures RowSum(row, state) == row[0] * state[0] + row[1] * state[1]
  {
    var head := row[..1];
    assert head[..0] == [];
    assert RowSum(head, state) == 0.0 + row[0] * state[0];
  }

  /** H applied to [1, 0] gives [s, s]. */
  lemma HadamardOnZero(s: real)
    ensures Apply(Hadamard(s), [1.0, 0.0]) == [s, s]
  {
    var r := Apply(Hadamard(s), [1.0, 0.0]);
    RowSum2(Hadamard(s)[0], [1.0, 0.0]);
    RowSum2(Hadamard(s)[1], [1.0, 0.0]);
    assert r[0] == s && r[1] == s;
  }

  /**
   * The page's example: create a qubit, apply H, measure. With s² = 1/2
   * the result is 0 exactly when the draw is below 1/2.
   */
  method RunExample(s: real, draw: real) returns (result: nat)
    requires QuantumGates.IsInvSqrt2(s)
    ensures result == 0 <==> draw < 0.5
    ensures result <= 1
  {
    var emulator := new Emulator();
    var qubit := emulator.CreateQubit();
    HadamardOnZero(s);
    ApplyGate(qubit, Hadamard(s));
    result := Measure(qubit, draw);
  }

  /** A real vector seen as complex amplitudes with imaginary part 0. */
  function Embed(v: RealVector): (r: QuantumGates.Vector)
    ensures |r| == |v|
    ensures forall i :: 0 <= i < |v| ==> r[i] == FromReal(v[i])
  {
    seq(|v|, i requires 0 <= i < |v| => FromReal(v[i]))
  }

  function EmbedMatrix(m: RealMatrix): (r: QuantumGates.Matrix)
    ensures |r| == |m|
    ensures forall i :: 0 <= i < |m| ==> r[i] == Embed(m[i])
  {
    seq(|m|, i requires 0 <= i < |m| => Embed(m[i]))
  }

  lemma {:induction false} RowSumEmbeds(row: RealVector, state: RealVector)
    requires |row| <= |state|
    ensures QuantumGates.Dot(Embed(row), Embed(state)) == FromReal(RowSum(row, state))
  {
    if |row| > 0 {
      var n := |row| - 1;
      assert Embed(row)[..n] == Embed(row[..n]);
      RowSumEmbeds(row[..n], state);
    }
  }

  /**
   * The emulator's real product agrees with the complex product over
   * gates from quantum-gates.js: both are the same map/reduce.
   */
  lemma ApplyAgreesWithMatVec(gate: RealMatrix, state: RealVector)
    requires Fits(gate, state)
    ensures QuantumGates.Fits(EmbedMatrix(gate), Embed(state))
    ensures QuantumGates.MatVec(EmbedMatrix(gate), Embed(state)) == Embed(Apply(gate, state))
  {
    forall i | 0 <= i < |gate|
      ensures QuantumGates.Dot(EmbedMatrix(gate)[i], Embed(state)) == FromReal(Apply(gate, state)[i])
    {
      RowSumEmbeds(gate[i], state);
    }
  }
}
