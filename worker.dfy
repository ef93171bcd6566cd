/**
 * The message handler of assets/js/quantum-worker.js: it maps the
 * Hadamard gate over every qubit in the message and posts the new list.
 * A qubit is its `state` plus whatever other fields it carries, which the
 * spread `{ ...qubit, state }` copies unchanged; the model keeps those
 * fields as an opaque value of type `Fields`.
 */
module QuantumWorker {
  import QuantumEmulation
  import QuantumGates

  datatype WorkerQubit<Fields> = WorkerQubit(state: seq<real>, fields: Fields)

  /** Math.SQRT1_2 written as s. */
  function HadamardGate(s: real): (m: seq<seq<real>>)
    ensures m == QuantumEmulation.Hadamard(s)
  {
    [[s, s], [s, -s]]
  }

  /** The new two-entry state of one qubit: rows of the gate times state[0], state[1]. */
  function Transform<Fields>(qubit: WorkerQubit<Fields>, s: real): (r: WorkerQubit<Fields>)
    requires |qubit.state| >= 2
    ensures r.fields == qubit.fields
    ensures r.state == QuantumEmulation.Apply(HadamardGate(s), qubit.state)
  {
    var h := HadamardGate(s);
    QuantumEmulation.RowSum2(h[0], qubit.state);
    QuantumEmulation.RowSum2(h[1], qubit.state);
    var newState := [h[0][0] * qubit.state[0] + h[0][1] * qubit.state[1],
                     h[1][0] * qubit.state[0] + h[1][1] * qubit.state[1]];
    var product := QuantumEmulation.Apply(h, qubit.state);
    assert product[0] == newState[0] && product[1] == newState[1];
    assert product == newState;
    qubit.(state := newState)
  }

  /**
   * `onmessage`: the posted list has the same length and order as the
   * received one, each state is H · state, the other fields are copied and
   * `algorithm` plays no part.
   */
  function OnMessage<Fields, Algorithm>(qubits: seq<WorkerQubit<Fields>>, algorithm: Algorithm, s: real)
    : (posted: seq<WorkerQubit<Fields>>)
    requires forall i :: 0 <= i < |qubits| ==> |qubits[i].state| >= 2
    ensures |posted| == |qubits|
    ensures forall i :: 0 <= i < |qubits| ==>
      posted[i].fields == qubits[i].fields &&
      posted[i].state == QuantumEmulation.Apply(HadamardGate(s), qubits[i].state)
  {
    seq(|qubits|, i requires 0 <= i < |qubits| => Transform(qubits[i], s))
  }

  /** The result does not depend on the `algorithm` field of the message. */
  lemma AlgorithmIgnored<Fields, Algorithm>(qubits: seq<WorkerQubit<Fields>>, a: Algorithm, b: Algorithm, s: real)
    requires forall i :: 0 <= i < |qubits| ==> |qubits[i].state| >= 2
    ensures OnMessage(qubits, a, s) == OnMessage(qubits, b, s)
  {
  }

  /** With s² = 1/2, the sums and differences of the sums and differences give back a and b. */
  lemma HadamardArithmetic(a: real, b: real, s: real)
    requires QuantumGates.IsInvSqrt2(s)
    ensures s * (s * a + s * b) + s * (s * a + -s * b) == a
    ensures s * (s * a + s * b) + -s * (s * a + -s * b) == b
  {
    calc {
      s * (s * a + s * b) + s * (s * a + -s * b);
      2.0 * (s * s) * a;
      a;
    }
    calc {
      s * (s * a + s * b) + -s * (s * a + -s * b);
      2.0 * (s * s) * b;
      b;
    }
  }

  /** Applying the gate twice to a two-amplitude state gives the state back. */
  lemma HadamardTwice(v: seq<real>, s: real)
    requires QuantumGates.IsInvSqrt2(s) && |v| == 2
    ensures QuantumEmulation.Apply(HadamardGate(s), QuantumEmulation.Apply(HadamardGate(s), v)) == v
  {
    var h := HadamardGate(s);
    var a, b := v[0], v[1];
    QuantumEmulation.RowSum2(h[0], v);
    QuantumEmulation.RowSum2(h[1], v);
    var w := QuantumEmulation.Apply(h, v);
    assert w[0] == s * a + s * b && w[1] == s * a + -s * b;
    QuantumEmulation.RowSum2(h[0], w);
    QuantumEmulation.RowSum2(h[1], w);
    HadamardArithmetic(a, b, s);
    var again := QuantumEmulation.Apply(h, w);
    assert again[0] == a && again[1] == b;
    assert again == v;
  }

  /**
   * With s² = 1/2 a second pass of the worker restores every two-amplitude
   * state: the Hadamard map is its own inverse.
   */
  lemma TwoPassesRestore<Fields, Algorithm>(qubits: seq<WorkerQubit<Fields>>, algorithm: Algorithm, s: real)
    requires QuantumGates.IsInvSqrt2(s)
    requires forall i :: 0 <= i < |qubits| ==> |qubits[i].state| == 2
    ensures OnMessage(OnMessage(qubits, algorithm, s), algorithm, s) == qubits
  {
    var once := OnMessage(qubits, algorithm, s);
    var twice := OnMessage(once, algorithm, s);
    forall i | 0 <= i < |qubits|
      ensures twice[i] == qubits[i]
    {
      HadamardTwice(qubits[i].state, s);
    }
  }
}
