/**
 * The qubit bookkeeping of assets/js/quantum-system.js. The system keeps a
 * map from qubit id to a qubit record (a superposition, an optional
 * partner id and a phase), the set of linked pairs, a whole-degree phase
 * counter and an amplitude. Every `Math.random()` draw and the values of
 * `Math.cos`, `Math.sin` and `Date.now()` come in as parameters; the
 * matrix rain effect is left out.
 */
module QuantumSystems {
  import opened Wrappers
  import ComplexNumbers

  type QubitId = int

  /** `{ real, imaginary }`: the two parts of a qubit's state. */
  datatype Superposition = Superposition(re: real, im: real)

  /** One entry of the `qubits` map. */
  datatype SystemQubit = SystemQubit(state: Superposition, entangled: Option<QubitId>, phase: real)

  /**
   * The qubits `initializeQubits(count)` writes: key i holds superposition
   * i and phase i of the draws, with no partner.
   */
  function InitialQubits(superpositions: seq<Superposition>, phases: seq<real>): (m: map<QubitId, SystemQubit>)
    requires |superpositions| == |phases|
    ensures forall q :: q in m <==> 0 <= q < |superpositions|
    ensures forall i :: 0 <= i < |superpositions| ==>
      m[i] == SystemQubit(superpositions[i], None, phases[i])
  {
    map i | 0 <= i < |superpositions| :: SystemQubit(superpositions[i], None, phases[i])
  }

  /**
   * `entangleQubits(a, b)` on the map: when both ids are present, a's
   * partner becomes b and b's partner becomes a; nothing else changes.
   */
  function Link(m: map<QubitId, SystemQubit>, a: QubitId, b: QubitId): (r: map<QubitId, SystemQubit>)
    requires a in m && b in m
    ensures r.Keys == m.Keys
    ensures r[a].entangled == Some(b) && r[b].entangled == Some(a)
    ensures forall q :: q in m ==> r[q].state == m[q].state && r[q].phase == m[q].phase
    ensures forall q :: q in m && q != a && q != b ==> r[q] == m[q]
  {
    var first := m[a := m[a].(entangled := Some(b))];
    first[b := first[b].(entangled := Some(a))]
  }

  /** The Born-rule draw of `measureQubit`: 1 when the draw is at most re² + im². */
  function MeasuredBit(state: Superposition, draw: real): (r: nat)
    ensures r <= 1
  {
    if draw <= state.re * state.re + state.im * state.im then 1 else 0
  }

  /** The basis state the partner of a measured qubit is set to. */
  function PartnerState(measured: nat): Superposition
  {
    if measured == 1 then Superposition(0.0, 1.0) else Superposition(1.0, 0.0)
  }

  /**
   * The registry after `measureQubit(id)` draws `measured`: if the qubit has
   * a partner the map holds, the partner's state becomes the basis state
   * of the result; everything else stays.
   */
  function AfterMeasurement(m: map<QubitId, SystemQubit>, id: QubitId, measured: nat): (r: map<QubitId, SystemQubit>)
    requires id in m
    ensures r.Keys == m.Keys
    ensures forall q :: q in m ==> r[q].entangled == m[q].entangled && r[q].phase == m[q].phase
  {
    match m[id].entangled
    case None => m
    case Some(p) => if p in m then m[p := m[p].(state := PartnerState(measured))] else m
  }

  /** The phase counter after one frame: one degree on, wrapping at 360. */
  function NextPhase(phase: int): (r: int)
    requires 0 <= phase < 360
    ensures 0 <= r < 360
    ensures r == if phase == 359 then 0 else phase + 1
  {
    (phase + 1) % 360
  }

  /** The phase counter after k frames. */
  function PhaseAfter(phase: int, k: nat): (r: int)
    requires 0 <= phase < 360
    ensures 0 <= r < 360
  {
    if k == 0 then phase else NextPhase(PhaseAfter(phase, k - 1))
  }

  /** The whole turns `x % 360` takes away: ⌊x/360⌋ for x ≥ 0, rounded towards 0 for x < 0. */
  function Turns(x: real): int
  {
    if x >= 0.0 then (x / 360.0).Floor else -((-x) / 360.0).Floor
  }

  /**
   * JavaScript's `x % 360` on numbers: x less its whole turns, so the
   * remainder lies strictly between −360 and 360 and has the sign of x.
   */
  function Rem360(x: real): (r: real)
    ensures x - r == 360.0 * Turns(x) as real
    ensures -360.0 < r < 360.0
    ensures x >= 0.0 ==> 0.0 <= r
    ensures x <= 0.0 ==> r <= 0.0
    ensures -360.0 < x < 360.0 ==> r == x
  {
    WholeTurns(if x >= 0.0 then x else -x);
    x - 360.0 * Turns(x) as real
  }

  /** Taking away ⌊y/360⌋ whole turns leaves a remainder in [0, 360), and none when y < 360. */
  lemma WholeTurns(y: real)
    requires y >= 0.0
    ensures var f := (y / 360.0).Floor; 0.0 <= y - 360.0 * f as real < 360.0
    ensures y < 360.0 ==> (y / 360.0).Floor == 0
  {
    var q := y / 360.0;
    var f := q.Floor;
    assert q * 360.0 == y;
    assert f as real <= q < f as real + 1.0;
    assert 360.0 * f as real <= y < 360.0 * f as real + 360.0;
  }

  /**
   * The values one qubit's step in `updateQuantumStates()` reads: the
   * rotation `Math.random() * 10`, the noise `(Math.random() - 0.5) * 0.1`,
   * the cosine and sine of the new phase, and the `Math.sqrt` of the noisy
   * pair's squared length.
   */
  datatype QubitTick = QubitTick(rotation: real, noise: real, cos: real, sin: real, magnitude: real)

  /** x², kept as a function so that proofs compare squares by their arguments. */
  function Square(x: real): real
  {
    x * x
  }

  /** The ranges of the two draws, cos² + sin² = 1, and `magnitude` the square root it stands for. */
  predicate GoodTick(t: QubitTick)
  {
    0.0 <= t.rotation < 10.0 && -0.05 <= t.noise < 0.05 &&
    Square(t.cos) + Square(t.sin) == 1.0 &&
    t.magnitude >= 0.0 && Square(t.magnitude) == Square(t.cos + t.noise) + Square(t.sin + t.noise)
  }

  /**
   * One qubit after `updateQuantumStates()`: the phase turns by the
   * rotation modulo 360, and the state is the noisy (cos, sin) pair
   * divided by its length. The partner stays.
   */
  function TickQubit(q: SystemQubit, t: QubitTick): (r: SystemQubit)
    requires GoodTick(t)
    ensures r.entangled == q.entangled
    ensures q.phase >= 0.0 ==> 0.0 <= r.phase < 360.0
    ensures q.phase + t.rotation - r.phase == 360.0 * Turns(q.phase + t.rotation) as real
  {
    TickMagnitudePositive(t);
    SystemQubit(Superposition((t.cos + t.noise) / t.magnitude, (t.sin + t.noise) / t.magnitude),
                q.entangled, Rem360(q.phase + t.rotation))
  }

  lemma SmallSquare(n: real)
    requires -0.05 <= n < 0.05
    ensures n * n <= 0.0025
  {
    if n >= 0.0 {
      assert n * n <= n * 0.05;
    } else {
      assert n * n == (-n) * (-n);
      assert (-n) * (-n) <= (-n) * 0.05;
    }
  }

  /** Noise below 0.05 cannot move a point of the unit circle to the origin. */
  lemma NoisyPairNonzero(c: real, s: real, n: real)
    requires -0.05 <= n < 0.05 && Square(c) + Square(s) == 1.0
    ensures Square(c + n) + Square(s + n) > 0.0
  {
    var a, b := c + n, s + n;
    ComplexNumbers.SquareNonnegative(a);
    ComplexNumbers.SquareNonnegative(b);
    if a != 0.0 {
      calc { Square(a) + Square(b); >= a * a; > 0.0; }
    } else if b != 0.0 {
      calc { Square(a) + Square(b); >= b * b; > 0.0; }
    } else {
      SmallSquare(n);
      assert false;
    }
  }

  /** So the length the step divides by is never 0. */
  lemma TickMagnitudePositive(t: QubitTick)
    requires GoodTick(t)
    ensures t.magnitude > 0.0
  {
    NoisyPairNonzero(t.cos, t.sin, t.noise);
    if t.magnitude == 0.0 {
      assert false;
    }
  }

  /** A complex number divided by its length has squared length 1. */
  lemma UnitAfterDividing(a: ComplexNumbers.Complex, m: real)
    requires m > 0.0 && ComplexNumbers.MagnitudeSquared(a) == Square(m)
    ensures ComplexNumbers.MagnitudeSquared(ComplexNumbers.DivideBy(a, m)) == 1.0
  {
    var x := ComplexNumbers.MagnitudeSquared(ComplexNumbers.DivideBy(a, m));
    ComplexNumbers.MagnitudeSquaredDivided(a, m, Square(m));
    assert Square(m) > 0.0 by {
      ComplexNumbers.SquareNonnegative(m);
      calc { Square(m); == m * m; > 0.0; }
    }
    ComplexNumbers.UnitFromScaled(x, Square(m));
  }

  /**
   * The new state is normalised: re² + im² = 1, and it points the way of the
   * noisy pair (re·magnitude and im·magnitude give the pair back).
   */
  lemma TickNormalises(q: SystemQubit, t: QubitTick)
    requires GoodTick(t)
    ensures var s := TickQubit(q, t).state; s.re * s.re + s.im * s.im == 1.0
    ensures var s := TickQubit(q, t).state; s.re * t.magnitude == t.cos + t.noise && s.im * t.magnitude == t.sin + t.noise
  {
    TickMagnitudePositive(t);
    var m := t.magnitude;
    var a := ComplexNumbers.Complex(t.cos + t.noise, t.sin + t.noise);
    var s := TickQubit(q, t).state;
    assert ComplexNumbers.DivideBy(a, m) == ComplexNumbers.Complex(s.re, s.im);
    assert ComplexNumbers.MagnitudeSquared(a) == Square(a.re) + Square(a.im);
    UnitAfterDividing(a, m);
    ComplexNumbers.DivideByInverts(a, m);
  }

  class QuantumSystem {
    var qubits: map<QubitId, SystemQubit>
    /** The `"id1-id2"` keys, one per successful link, kept as the pair of ids. */
    var entangledPairs: set<(QubitId, QubitId)>
    var phase: int
    var amplitude: real

    /** The phase counter is a whole number of degrees in [0, 360). */
    predicate Valid()
      reads this
    {
      0 <= phase < 360
    }

    constructor ()
      ensures Valid()
      ensures qubits == map[] && entangledPairs == {} && phase == 0 && amplitude == 1.0
    {
      qubits := map[];
      entangledPairs := {};
      phase := 0;
      amplitude := 1.0;
    }

    /**
     * `initializeQubits(count)`: sets keys 0 .. count−1, overwriting what
     * they held; `superpositions[i]` is the pair of `createSuperposition`
     * values and `phases[i]` the `Math.random() * 360` draw of qubit i.
     */
    method InitializeQubits(count: nat, superpositions: seq<Superposition>, phases: seq<real>)
      requires |superpositions| == count && |phases| == count
      modifies this
      ensures qubits == old(qubits) + InitialQubits(superpositions, phases)
      ensures entangledPairs == old(entangledPairs) && phase == old(phase) && amplitude == old(amplitude)
    {
      var i := 0;
      while i < count
        invariant 0 <= i <= count
        invariant qubits == old(qubits) + InitialQubits(superpositions[..i], phases[..i])
        invariant entangledPairs == old(entangledPairs) && phase == old(phase) && amplitude == old(amplitude)
      {
        qubits := qubits[i := SystemQubit(superpositions[i], None, phases[i])];
        i := i + 1;
        assert qubits == old(qubits) + InitialQubits(superpositions[..i], phases[..i]);
      }
      assert superpositions[..i] == superpositions && phases[..i] == phases;
    }

    /**
     * `entangleQubits(id1, id2)`: when both ids are present the two qubits
     * name each other and the pair is recorded; otherwise nothing changes.
     */
    method EntangleQubits(id1: QubitId, id2: QubitId)
      modifies this
      ensures id1 in old(qubits) && id2 in old(qubits) ==>
        qubits == Link(old(qubits), id1, id2) && entangledPairs == old(entangledPairs) + {(id1, id2)}
      ensures !(id1 in old(qubits) && id2 in old(qubits)) ==>
        qubits == old(qubits) && entangledPairs == old(entangledPairs)
      ensures phase == old(phase) && amplitude == old(amplitude)
    {
      if id1 in qubits && id2 in qubits {
        qubits := qubits[id1 := qubits[id1].(entangled := Some(id2))];
        qubits := qubits[id2 := qubits[id2].(entangled := Some(id1))];
        entangledPairs := entangledPairs + {(id1, id2)};
      }
    }

    /**
     * `measureQubit(id)` with `Math.random()` given as `draw`: `None` (null)
     * for an unknown id; otherwise the drawn bit, after setting the
     * partner's state.
     */
    method MeasureQubit(id: QubitId, draw: real) returns (r: Option<nat>)
      modifies this
      ensures id !in old(qubits) ==> r == None && qubits == old(qubits)
      ensures id in old(qubits) ==>
        r == Some(MeasuredBit(old(qubits)[id].state, draw)) &&
        qubits == AfterMeasurement(old(qubits), id, r.value)
      ensures entangledPairs == old(entangledPairs) && phase == old(phase) && amplitude == old(amplitude)
    {
      if id !in qubits {
        return None;
      }
      var qubit := qubits[id];
      var probability := qubit.state.re * qubit.state.re + qubit.state.im * qubit.state.im;
      var measured := if draw <= probability then 1 else 0;
      if qubit.entangled.Some? {
        var partner := qubit.entangled.value;
        if partner in qubits {
          qubits := qubits[partner := qubits[partner].(state := if measured == 1 then Superposition(0.0, 1.0)
                                                                 else Superposition(1.0, 0.0))];
        }
      }
      r := Some(measured);
    }

    /**
     * `update()`: every qubit takes its step of `updateQuantumStates()`
     * with `ticks[id]` as its draws, the phase counter moves one degree on,
     * wrapping at 360, and the amplitude is 0.8 + 0.2·`sinNow`, where
     * `sinNow` is `Math.sin(Date.now() / 1000)`.
     */
    method Update(ticks: map<QubitId, QubitTick>, sinNow: real)
      requires Valid()
      requires forall id :: id in qubits ==> id in ticks && GoodTick(ticks[id])
      modifies this
      ensures Valid()
      ensures qubits.Keys == old(qubits).Keys
      ensures forall id :: id in qubits ==> qubits[id] == TickQubit(old(qubits)[id], ticks[id])
      ensures phase == NextPhase(old(phase)) && amplitude == 0.8 + sinNow * 0.2
      ensures -1.0 <= sinNow <= 1.0 ==> 0.6 <= amplitude <= 1.0
      ensures entangledPairs == old(entangledPairs)
    {
      qubits := map id | id in qubits :: TickQubit(qubits[id], ticks[id]);
      phase := (phase + 1) % 360;
      amplitude := 0.8 + sinNow * 0.2;
    }
  }

  /** `initializeQubits(n)` writes keys 0 .. n−1, none of them linked. */
  lemma InitialQubitsUnlinked(superpositions: seq<Superposition>, phases: seq<real>, q: QubitId)
    requires |superpositions| == |phases|
    ensures q in InitialQubits(superpositions, phases) <==> 0 <= q < |superpositions|
    ensures q in InitialQubits(superpositions, phases) ==> InitialQubits(superpositions, phases)[q].entangled == None
  {
  }

  /** Linking is symmetric: linking b with a yields the same partners as linking a with b when a ≠ b. */
  lemma LinkSymmetric(m: map<QubitId, SystemQubit>, a: QubitId, b: QubitId)
    requires a in m && b in m && a != b
    ensures Link(m, a, b) == Link(m, b, a)
  {
  }

  /** The result is 1 exactly when the draw is at most re² + im². */
  lemma MeasuredBitIff(state: Superposition, draw: real)
    ensures MeasuredBit(state, draw) == 1 <==> draw <= state.re * state.re + state.im * state.im
    ensures MeasuredBit(state, draw) == 0 <==> draw > state.re * state.re + state.im * state.im
  {
  }

  /**
   * Measuring a linked qubit sets its partner to (0, 1) on 1 and (1, 0) on
   * 0, and leaves the measured qubit's own entry as it was unless it is
   * its own partner.
   */
  lemma MeasurementSetsPartner(m: map<QubitId, SystemQubit>, id: QubitId, p: QubitId, measured: nat)
    requires id in m && p in m && m[id].entangled == Some(p) && measured <= 1
    ensures AfterMeasurement(m, id, measured)[p].state
         == (if measured == 1 then Superposition(0.0, 1.0) else Superposition(1.0, 0.0))
    ensures p != id ==> AfterMeasurement(m, id, measured)[id] == m[id]
    ensures forall q :: q in m && q != p ==> AfterMeasurement(m, id, measured)[q] == m[q]
  {
  }

  /** A qubit without a partner in the map leaves the registry unchanged when measured. */
  lemma UnlinkedMeasurementChangesNothing(m: map<QubitId, SystemQubit>, id: QubitId, measured: nat)
    requires id in m && (m[id].entangled == None || m[id].entangled.value !in m)
    ensures AfterMeasurement(m, id, measured) == m
  {
  }

  /** After k frames the phase is the start plus k, modulo 360; in particular 360 frames restore it. */
  lemma {:induction false} PhaseAfterIsModular(phase: int, k: nat)
    requires 0 <= phase < 360
    ensures PhaseAfter(phase, k) == (phase + k) % 360
  {
    if k > 0 {
      PhaseAfterIsModular(phase, k - 1);
      ModSuccessor(phase + k - 1);
    }
  }

  /** Adding one after reducing modulo 360 agrees with reducing after adding one. */
  lemma ModSuccessor(a: int)
    ensures a % 360 == 359 ==> (a + 1) % 360 == 0
    ensures a % 360 < 359 ==> (a + 1) % 360 == a % 360 + 1
  {
    var q := a / 360;
    if a % 360 == 359 {
      assert a + 1 == 360 * (q + 1);
    } else {
      assert a + 1 == 360 * q + (a % 360 + 1);
    }
  }

  lemma PhaseFullTurn(phase: int)
    requires 0 <= phase < 360
    ensures PhaseAfter(phase, 360) == phase
  {
    PhaseAfterIsModular(phase, 360);
  }
}
