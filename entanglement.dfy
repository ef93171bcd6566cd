/**
 * The entanglement manager of assets/js/entanglement-manager.js. It keeps a
 * map of entangled groups, each an amplitude vector over 2^n basis states
 * and the ids of its n qubits, and it tags the qubits it entangles in a
 * registry of qubits (the `system` argument, reached through `getQubit`).
 *
 * As written, the manager stores the whole Bell record, not its amplitude
 * array, as a group's `state`, and normalises with a `divide` method that
 * `Complex` does not have; the `...AsWritten` members below show that the
 * update then always throws. The class models the evident intent: the
 * group holds the amplitude array, and normalising divides every amplitude
 * by the norm.
 */
module Entanglement {
  import opened Wrappers
  import opened ComplexNumbers
  import opened BinaryIndex
  import opened QuantumGates

  type QubitId = int
  type GroupId = string

  datatype Error =
    | QubitNotFound(id: QubitId)   // `getQubit` returned undefined: a TypeError
    | GroupNotFound(group: GroupId) // `entangledGroups.get` returned undefined: a TypeError
    | ZeroNorm                      // nothing survived the collapse; the norm is 0

  /** A qubit of the registry: its amplitudes and the group it is tagged with, if any. */
  datatype ManagedQubit = ManagedQubit(state: seq<Complex>, entangled: Option<GroupId>)

  /** A group: the amplitude vector and the qubit ids, in register order. */
  datatype Group = Group(state: seq<Complex>, qubits: seq<QubitId>)

  /** Math.sqrt, as a parameter: a non-negative root of every non-negative real. */
  ghost predicate IsSquareRoot(sqrt: real -> real)
  {
    forall x: real :: x >= 0.0 ==> sqrt(x) >= 0.0 && sqrt(x) * sqrt(x) == x
  }

  /** The registry of qubits that `system.getQubit(id)` reads. */
  class QubitRegistry {
    var qubits: map<QubitId, ManagedQubit>

    constructor (qubits: map<QubitId, ManagedQubit>)
      ensures this.qubits == qubits
    {
      this.qubits := qubits;
    }
  }

  // ---------------------------------------------------------------------------
  // Bell states

  /**
   * `createBellState(n)`: 2^n amplitudes, 1/√2 (here s) at the first and the
   * last index and 0 everywhere else. For n = 0 both are index 0.
   */
  function BellState(n: nat, s: real): (r: seq<Complex>)
    ensures |r| == Pow2(n)
    ensures r[0] == FromReal(s) && r[|r| - 1] == FromReal(s)
    ensures forall k :: 0 < k < |r| - 1 ==> r[k] == Zero
  {
    seq(Pow2(n), k requires 0 <= k < Pow2(n) => if k == 0 || k == Pow2(n) - 1 then FromReal(s) else FromReal(0.0))
  }

  lemma {:induction false} Norm2Append(a: seq<Complex>, b: seq<Complex>)
    ensures Norm2(a + b) == Norm2(a) + Norm2(b)
  {
    if |b| > 0 {
      var n := |b| - 1;
      assert (a + b)[..|a + b| - 1] == a + b[..n];
      Norm2Append(a, b[..n]);
    } else {
      assert a + b == a;
    }
  }

  lemma {:induction false} Norm2OfZeros(v: seq<Complex>)
    requires forall k :: 0 <= k < |v| ==> v[k] == Zero
    ensures Norm2(v) == 0.0
  {
    if |v| > 0 {
      Norm2OfZeros(v[..|v| - 1]);
    }
  }

  lemma {:induction false} Norm2Nonnegative(v: seq<Complex>)
    ensures Norm2(v) >= 0.0
  {
    if |v| > 0 {
      Norm2Nonnegative(v[..|v| - 1]);
      MagnitudeSquaredZeroIff(v[|v| - 1]);
    }
  }

  /** The total is at least the squared magnitude of any one entry. */
  lemma {:induction false} Norm2AtLeastEntry(v: seq<Complex>, k: nat)
    requires k < |v|
    ensures Norm2(v) >= MagnitudeSquared(v[k])
  {
    var n := |v| - 1;
    assert Norm2(v) == Norm2(v[..n]) + MagnitudeSquared(v[n]);
    MagnitudeSquaredZeroIff(v[n]);
    if k == n {
      Norm2Nonnegative(v[..n]);
    } else {
      assert v[..n][k] == v[k];
      Norm2AtLeastEntry(v[..n], k);
    }
  }

  /**
   * With s = 1/√2 a Bell state over one or more qubits is normalised; over
   * zero qubits its single amplitude has probability 1/2.
   */
  lemma BellStateNormalised(n: nat, s: real)
    requires QuantumGates.IsInvSqrt2(s)
    ensures n >= 1 ==> Norm2(BellState(n, s)) == 1.0
    ensures n == 0 ==> Norm2(BellState(n, s)) == 0.5
  {
    var v := BellState(n, s);
    var last := |v| - 1;
    assert MagnitudeSquared(FromReal(s)) == 0.5;
    if n == 0 {
      assert v[..0] == [];
      assert Norm2(v) == Norm2(v[..0]) + MagnitudeSquared(v[0]);
    } else {
      assert last >= 1;
      var middle := v[1..last];
      assert v == [v[0]] + middle + [v[last]];
      Norm2OfZeros(middle);
      Norm2Append([v[0]] + middle, [v[last]]);
      Norm2Append([v[0]], middle);
      assert [v[0]][..0] == [];
      assert [v[last]][..0] == [];
    }
  }

  // ---------------------------------------------------------------------------
  // Collapse, normalisation and the reduced state

  /** `bits[targetIndex] === String(measuredState)` for a one-character bit. */
  predicate Matches(c: char, measured: int)
  {
    (c == '0' && measured == 0) || (c == '1' && measured == 1)
  }

  /** `array.indexOf(x)`: the first position of x, or −1. */
  function IndexOf(s: seq<QubitId>, x: QubitId): (r: int)
    ensures -1 <= r < |s|
    ensures r == -1 <==> x !in s
    ensures r >= 0 ==> s[r] == x && x !in s[..r]
  {
    if |s| == 0 then -1
    else if s[0] == x then 0
    else
      var i := IndexOf(s[1..], x);
      assert s[1..][..i + 1] == s[1..i + 2] by { }
      if i == -1 then -1 else i + 1
  }

  /** The collapsed amplitude at index k: 1 when the target qubit's bit is the measured one. */
  function CollapsedAmplitude(k: nat, n: nat, target: int, measured: int): Complex
  {
    var bits := PadStart(ToBinary(k), n, '0');
    if 0 <= target < |bits| && Matches(bits[target], measured) then FromReal(1.0) else FromReal(0.0)
  }

  /** `group.state.map((_, index) => ...)`: only the length of the old state is read. */
  function Collapse(len: nat, n: nat, target: int, measured: int): (r: seq<Complex>)
    ensures |r| == len
  {
    seq(len, k requires 0 <= k < len => CollapsedAmplitude(k, n, target, measured))
  }

  /** Entry k of the collapse is 1 exactly when bit `target` of k (most significant first) is the measured bit. */
  lemma CollapseByBit(n: nat, target: nat, measured: int, k: nat)
    requires target < n && k < Pow2(n)
    ensures Collapse(Pow2(n), n, target, measured)[k]
         == if Bit(k, n, target) == measured then One else Zero
  {
    AmplitudeByBit(n, target, measured, k);
  }

  /** The amplitude CollapseByBit reads, computed from the padded numeral of k. */
  lemma AmplitudeByBit(n: nat, target: nat, measured: int, k: nat)
    requires target < n && k < Pow2(n)
    ensures CollapsedAmplitude(k, n, target, measured) == if Bit(k, n, target) == measured then One else Zero
  {
    var bits := PadStart(ToBinary(k), n, '0');
    PaddedDigit(k, n, target);
    assert bits[target] == DigitChar(Bit(k, n, target));
    assert Matches(bits[target], measured) <==> Bit(k, n, target) == measured;
  }

  /** For a listed qubit and a bit of 0 or 1, some index survives the collapse. */
  lemma CollapseKeepsSome(n: nat, target: nat, measured: nat)
    requires target < n && measured <= 1
    ensures Norm2(Collapse(Pow2(n), n, target, measured)) >= 1.0
  {
    var j := n - 1 - target;
    var k := if measured == 0 then 0 else Pow2(j);
    Pow2Monotone(j + 1, n);
    assert k < Pow2(n);
    BitWitness(j);
    assert Bit(k, n, target) == measured;
    CollapseByBit(n, target, measured, k);
    Norm2AtLeastEntry(Collapse(Pow2(n), n, target, measured), k);
  }

  /** `state.map(c => c.divide(norm))`, with division by a real as intended. */
  function Normalize(v: seq<Complex>, norm: real): (r: seq<Complex>)
    requires norm != 0.0
    ensures |r| == |v|
    ensures forall k :: 0 <= k < |v| ==> r[k] == DivideBy(v[k], norm)
  {
    seq(|v|, k requires 0 <= k < |v| => DivideBy(v[k], norm))
  }

  /** Division by a non-zero norm keeps exactly the zero entries zero. */
  lemma NormalizeKeepsZeros(v: seq<Complex>, norm: real, k: nat)
    requires norm != 0.0 && k < |v|
    ensures Normalize(v, norm)[k] == Zero <==> v[k] == Zero
  {
    var c := Normalize(v, norm)[k];
    DivideByInverts(v[k], norm);
    var x, y := c.re, c.im;
    assert v[k] == Complex(x * norm - y * 0.0, x * 0.0 + y * norm);
    if v[k] == Zero {
      assert x * norm == 0.0 && y * norm == 0.0;
      if x != 0.0 {
        PositiveProduct(if x > 0.0 then x else -x, if norm > 0.0 then norm else -norm);
        assert false;
      }
      if y != 0.0 {
        PositiveProduct(if y > 0.0 then y else -y, if norm > 0.0 then norm else -norm);
        assert false;
      }
    }
  }

  lemma SumScaled(s: real, a: real, b: real, t: real, x: real, y: real, k: real)
    requires s == a + b && t == x + y
    requires ScaledBy(a, k) == x && ScaledBy(b, k) == y
    ensures ScaledBy(s, k) == t
  {
  }

  lemma Norm2Last(v: seq<Complex>)
    requires |v| > 0
    ensures Norm2(v) == Norm2(v[..|v| - 1]) + MagnitudeSquared(v[|v| - 1])
  {
  }

  /** Scaling every squared magnitude by the same factor scales their sum by it. */
  lemma {:induction false} Norm2Scales(u: seq<Complex>, v: seq<Complex>, kk: real)
    requires |u| == |v|
    requires forall k :: 0 <= k < |u| ==> ScaledBy(MagnitudeSquared(u[k]), kk) == MagnitudeSquared(v[k])
    ensures ScaledBy(Norm2(u), kk) == Norm2(v)
  {
    if |u| > 0 {
      var n := |u| - 1;
      Norm2Scales(u[..n], v[..n], kk);
      Norm2Last(u);
      Norm2Last(v);
      SumScaled(Norm2(u), Norm2(u[..n]), MagnitudeSquared(u[n]), Norm2(v), Norm2(v[..n]), MagnitudeSquared(v[n]), kk);
    }
  }

  /** Dividing every amplitude by `norm` divides Σ|c|² by norm² (`kk` stands for norm²). */
  lemma NormalizeScalesNorm2(v: seq<Complex>, norm: real, kk: real)
    requires norm != 0.0 && kk == norm * norm
    ensures ScaledBy(Norm2(Normalize(v, norm)), kk) == Norm2(v)
  {
    var w := Normalize(v, norm);
    forall k | 0 <= k < |w|
      ensures ScaledBy(MagnitudeSquared(w[k]), kk) == MagnitudeSquared(v[k])
    {
      MagnitudeSquaredDivided(v[k], norm, kk);
    }
    Norm2Scales(w, v, kk);
  }

  /** Dividing by the norm √(Σ|c|²) leaves squared magnitudes that sum to 1. */
  lemma NormalizedIsUnit(v: seq<Complex>, sqrt: real -> real)
    requires IsSquareRoot(sqrt) && Norm2(v) > 0.0
    ensures sqrt(Norm2(v)) > 0.0
    ensures Norm2(Normalize(v, sqrt(Norm2(v)))) == 1.0
  {
    var norm := sqrt(Norm2(v));
    assert norm * norm == Norm2(v);
    assert norm != 0.0;
    NormalizeScalesNorm2(v, norm, norm * norm);
    SquarePositive(norm);
    UnitFromScaled(Norm2(Normalize(v, norm)), norm * norm);
  }

  /** Σ of the amplitudes k < upto whose bit `t` is b: one entry of the reduced state. */
  function Marginal(state: seq<Complex>, n: nat, t: nat, b: nat, upto: nat): Complex
    requires upto <= |state| && t < n
  {
    if upto == 0 then Zero
    else
      var k := upto - 1;
      Add(Marginal(state, n, t, b, k), if Bit(k, n, t) == b then state[k] else Zero)
  }

  /** The two-entry reduced state of qubit t: amplitudes summed by that qubit's bit. */
  function ReducedState(state: seq<Complex>, n: nat, t: nat): (r: seq<Complex>)
    requires t < n
    ensures |r| == 2
  {
    [Marginal(state, n, t, 0, |state|), Marginal(state, n, t, 1, |state|)]
  }

  /** The sum of all amplitudes, as a left fold. */
  function Total(state: seq<Complex>): Complex
  {
    if |state| == 0 then Zero else Add(Total(state[..|state| - 1]), state[|state| - 1])
  }

  lemma {:induction false} MarginalsPartition(state: seq<Complex>, n: nat, t: nat, upto: nat)
    requires upto <= |state| && t < n
    ensures Add(Marginal(state, n, t, 0, upto), Marginal(state, n, t, 1, upto)) == Total(state[..upto])
  {
    if upto > 0 {
      MarginalsPartition(state, n, t, upto - 1);
      assert state[..upto][..upto - 1] == state[..upto - 1];
    }
  }

  /** The two entries of a reduced state together hold every amplitude exactly once. */
  lemma ReducedStatePartitions(state: seq<Complex>, n: nat, t: nat)
    requires t < n
    ensures Add(ReducedState(state, n, t)[0], ReducedState(state, n, t)[1]) == Total(state)
  {
    MarginalsPartition(state, n, t, |state|);
    assert state[..|state|] == state;
  }

  /** One more index adds its amplitude to the entry of its bit and leaves the other entry as it was. */
  lemma MarginalStep(state: seq<Complex>, n: nat, t: nat, upto: nat)
    requires upto < |state| && t < n
    ensures var b := Bit(upto, n, t);
      [Marginal(state, n, t, 0, upto + 1), Marginal(state, n, t, 1, upto + 1)]
        == [Marginal(state, n, t, 0, upto), Marginal(state, n, t, 1, upto)][b := Add(Marginal(state, n, t, b, upto), state[upto])]
  {
    var b := Bit(upto, n, t);
    AddComponentwise(Marginal(state, n, t, 1 - b, upto), Zero);
  }

  /**
   * `calculateReducedState(state, qubitIndex)`: the loop over every index,
   * reading the qubit's bit from the padded binary numeral and adding the
   * amplitude to that entry.
   */
  method CalculateReducedState(state: seq<Complex>, qubitIndex: nat) returns (reduced: seq<Complex>)
    requires Pow2(Log2(|state|)) == |state| && qubitIndex < Log2(|state|)
    ensures reduced == ReducedState(state, Log2(|state|), qubitIndex)
  {
    var numQubits := Log2(|state|);
    reduced := [Zero, Zero];
    var index := 0;
    while index < |state|
      invariant 0 <= index <= |state|
      invariant reduced == [Marginal(state, numQubits, qubitIndex, 0, index),
                            Marginal(state, numQubits, qubitIndex, 1, index)]
    {
      var bits := PadStart(ToBinary(index), numQubits, '0');
      PaddedDigit(index, numQubits, qubitIndex);
      var targetBit := ParseDigit(bits[qubitIndex]);
      assert targetBit == Bit(index, numQubits, qubitIndex);
      MarginalStep(state, numQubits, qubitIndex, index);
      reduced := reduced[targetBit := Add(reduced[targetBit], state[index])];
      index := index + 1;
    }
  }

  /** Over two qubits, the second qubit's reduced state adds indices 0, 2 and indices 1, 3. */
  lemma ReducedStateOfSecond(v: seq<Complex>)
    requires |v| == 4
    ensures ReducedState(v, 2, 1) == [Add(v[0], v[2]), Add(v[1], v[3])]
  {
    PairBits(0);
    PairBits(1);
    PairBits(2);
    PairBits(3);
    AddComponentwise(Zero, v[0]);
    AddComponentwise(Zero, v[1]);
    assert Marginal(v, 2, 1, 0, 1) == v[0];
    assert Marginal(v, 2, 1, 0, 2) == v[0];
    assert Marginal(v, 2, 1, 0, 3) == Add(v[0], v[2]);
    assert Marginal(v, 2, 1, 0, 4) == Add(v[0], v[2]);
    assert Marginal(v, 2, 1, 1, 1) == Zero;
    assert Marginal(v, 2, 1, 1, 2) == v[1];
    assert Marginal(v, 2, 1, 1, 3) == v[1];
    assert Marginal(v, 2, 1, 1, 4) == Add(v[1], v[3]);
  }

  /** Collapsing the first qubit of a pair keeps indices 0, 1 (bit 0) or 2, 3 (bit 1). */
  lemma CollapseOfFirst(measured: nat)
    requires measured <= 1
    ensures Collapse(4, 2, 0, measured)
         == if measured == 0 then [One, One, Zero, Zero] else [Zero, Zero, One, One]
  {
    var c := Collapse(4, 2, 0, measured);
    PairBits(0);
    PairBits(1);
    PairBits(2);
    PairBits(3);
    CollapseByBit(2, 0, measured, 0);
    CollapseByBit(2, 0, measured, 1);
    CollapseByBit(2, 0, measured, 2);
    CollapseByBit(2, 0, measured, 3);
  }

  /**
   * After the first qubit of a pair is measured, its partner's reduced
   * state is (1/norm, 1/norm) whatever the bit and whatever the amplitudes
   * were before: the collapse reads only the length of the old state.
   */
  lemma PartnerOfCollapsedPair(measured: nat, norm: real)
    requires measured <= 1 && norm != 0.0
    ensures ReducedState(Normalize(Collapse(4, 2, 0, measured), norm), 2, 1)
         == [FromReal(1.0 / norm), FromReal(1.0 / norm)]
  {
    CollapseOfFirst(measured);
    var v := Normalize(Collapse(4, 2, 0, measured), norm);
    var u := FromReal(1.0 / norm);
    assert DivideBy(Zero, norm) == Zero;
    assert DivideBy(One, norm) == u;
    ReducedStateOfSecond(v);
    AddComponentwise(u, Zero);
    AddComponentwise(Zero, u);
  }

  // ---------------------------------------------------------------------------
  // Tagging qubits and updating group members

  /** Tag each listed qubit that the registry holds with group g, in list order. */
  function TagAll(m: map<QubitId, ManagedQubit>, ids: seq<QubitId>, g: GroupId): (r: map<QubitId, ManagedQubit>)
    ensures r.Keys == m.Keys
  {
    if |ids| == 0 then m
    else
      var before := TagAll(m, ids[..|ids| - 1], g);
      var id := ids[|ids| - 1];
      if id in before then before[id := before[id].(entangled := Some(g))] else before
  }

  /** Tagging keeps every qubit, tags exactly the listed ones and changes nothing else. */
  lemma {:induction false} TagAllTagsListed(m: map<QubitId, ManagedQubit>, ids: seq<QubitId>, g: GroupId)
    ensures TagAll(m, ids, g).Keys == m.Keys
    ensures forall q :: q in m ==>
      TagAll(m, ids, g)[q] == (if q in ids then m[q].(entangled := Some(g)) else m[q])
  {
    if |ids| > 0 {
      var n := |ids| - 1;
      TagAllTagsListed(m, ids[..n], g);
      assert forall q :: q in ids <==> q in ids[..n] || q == ids[n] by {
        assert ids == ids[..n] + [ids[n]];
      }
    }
  }

  /** The registry and the error after updating the members of a group, with the qubit list read up to `upto`. */
  datatype MemberUpdate = MemberUpdate(qubits: map<QubitId, ManagedQubit>, error: Option<Error>)

  /**
   * `group.qubits.forEach((id, idx) => ...)` over the first `upto` ids: every
   * id but the measured one gets `reduced[idx]`, the reduced state of its
   * position; the first id the registry lacks stops the loop with an error,
   * keeping the updates before it.
   */
  function UpdateMembers(m: map<QubitId, ManagedQubit>, ids: seq<QubitId>, measuredId: QubitId,
                         reduced: seq<seq<Complex>>, upto: nat): (r: MemberUpdate)
    requires upto <= |ids| == |reduced|
    ensures measuredId in m ==> measuredId in r.qubits && r.qubits[measuredId] == m[measuredId]
  {
    if upto == 0 then MemberUpdate(m, None)
    else
      var before := UpdateMembers(m, ids, measuredId, reduced, upto - 1);
      var idx := upto - 1;
      var id := ids[idx];
      if before.error.Some? || id == measuredId then before
      else if id !in before.qubits then MemberUpdate(before.qubits, Some(QubitNotFound(id)))
      else MemberUpdate(before.qubits[id := before.qubits[id].(state := reduced[idx])], None)
  }

  /** The member loop keeps the registry's keys and tags, and its only error is a missing qubit. */
  lemma {:induction false} UpdateMembersFrame(m: map<QubitId, ManagedQubit>, ids: seq<QubitId>,
                                             measuredId: QubitId, reduced: seq<seq<Complex>>, upto: nat)
    requires upto <= |ids| == |reduced|
    ensures var r := UpdateMembers(m, ids, measuredId, reduced, upto);
      r.qubits.Keys == m.Keys &&
      (forall q :: q in m ==> r.qubits[q].entangled == m[q].entangled) &&
      (r.error.Some? ==> r.error.value.QubitNotFound?)
  {
    if upto > 0 {
      UpdateMembersFrame(m, ids, measuredId, reduced, upto - 1);
    }
  }

  /** When the registry holds every member, the member loop raises no error. */
  lemma {:induction false} UpdateMembersSucceed(m: map<QubitId, ManagedQubit>, ids: seq<QubitId>,
                                               measuredId: QubitId, reduced: seq<seq<Complex>>, upto: nat)
    requires upto <= |ids| == |reduced|
    requires forall i :: 0 <= i < |ids| ==> ids[i] in m
    ensures UpdateMembers(m, ids, measuredId, reduced, upto).error == None
  {
    if upto > 0 {
      UpdateMembersSucceed(m, ids, measuredId, reduced, upto - 1);
      UpdateMembersFrame(m, ids, measuredId, reduced, upto - 1);
    }
  }

  /** Once a member is missing, the rest of the loop changes nothing. */
  lemma {:induction false} UpdateMembersStopsAtError(m: map<QubitId, ManagedQubit>, ids: seq<QubitId>,
                                                    measuredId: QubitId, reduced: seq<seq<Complex>>, upto: nat, later: nat)
    requires upto <= later <= |ids| == |reduced|
    requires UpdateMembers(m, ids, measuredId, reduced, upto).error.Some?
    ensures UpdateMembers(m, ids, measuredId, reduced, later) == UpdateMembers(m, ids, measuredId, reduced, upto)
  {
    if upto < later {
      UpdateMembersStopsAtError(m, ids, measuredId, reduced, upto, later - 1);
    }
  }

  /**
   * The member loop of `updateEntangledState` on the registry: every listed
   * qubit but the measured one gets the reduced state of its position, and
   * the first one the registry lacks stops the loop with an error.
   */
  method UpdateMemberStates(system: QubitRegistry, ids: seq<QubitId>, measuredId: QubitId, state: seq<Complex>)
    returns (error: Option<Error>)
    requires |state| == Pow2(|ids|)
    modifies system
    ensures MemberUpdate(system.qubits, error)
         == UpdateMembers(old(system.qubits), ids, measuredId, ReducedStates(state, |ids|), |ids|)
  {
    var n := |ids|;
    ghost var reducedStates := ReducedStates(state, n);
    Log2OfPow2(n);
    var idx := 0;
    while idx < n
      invariant 0 <= idx <= n
      invariant UpdateMembers(old(system.qubits), ids, measuredId, reducedStates, idx) == MemberUpdate(system.qubits, None)
    {
      var id := ids[idx];
      ghost var next := UpdateMembers(old(system.qubits), ids, measuredId, reducedStates, idx + 1);
      if id != measuredId {
        if id !in system.qubits {
          assert next == MemberUpdate(system.qubits, Some(QubitNotFound(id)));
          error := Some(QubitNotFound(id));
          UpdateMembersStopsAtError(old(system.qubits), ids, measuredId, reducedStates, idx + 1, n);
          return;
        }
        var reduced := CalculateReducedState(state, idx);
        assert reduced == reducedStates[idx];
        assert next == MemberUpdate(system.qubits[id := system.qubits[id].(state := reduced)], None);
        system.qubits := system.qubits[id := system.qubits[id].(state := reduced)];
      } else {
        assert next == MemberUpdate(system.qubits, None);
      }
      idx := idx + 1;
    }
    error := None;
  }

  /** Without an error, the measured qubit and every qubit outside the list keep their entry. */
  lemma {:induction false} UpdateMembersKeepsOthers(m: map<QubitId, ManagedQubit>, ids: seq<QubitId>,
                                                   measuredId: QubitId, reduced: seq<seq<Complex>>, upto: nat, q: QubitId)
    requires upto <= |ids| == |reduced|
    requires q in m && (q == measuredId || q !in ids[..upto])
    ensures var r := UpdateMembers(m, ids, measuredId, reduced, upto);
      q in r.qubits && r.qubits[q] == m[q]
  {
    if upto > 0 {
      assert ids[..upto] == ids[..upto - 1] + [ids[upto - 1]];
      UpdateMembersKeepsOthers(m, ids, measuredId, reduced, upto - 1, q);
    }
  }

  /**
   * When the registry holds every member, the member at position i (not
   * the measured qubit, and not listed again later) ends with `reduced[i]`.
   */
  lemma {:induction false} UpdateMembersSetsReduced(m: map<QubitId, ManagedQubit>, ids: seq<QubitId>,
                                                   measuredId: QubitId, reduced: seq<seq<Complex>>, upto: nat, i: nat)
    requires upto <= |ids| == |reduced|
    requires forall j :: 0 <= j < |ids| ==> ids[j] in m
    requires i < upto && ids[i] != measuredId && ids[i] !in ids[i + 1..upto]
    ensures var r := UpdateMembers(m, ids, measuredId, reduced, upto);
      ids[i] in r.qubits && r.qubits[ids[i]] == m[ids[i]].(state := reduced[i])
  {
    var k := upto - 1;
    UpdateMembersSucceed(m, ids, measuredId, reduced, k);
    UpdateMembersFrame(m, ids, measuredId, reduced, k);
    if i < k {
      assert ids[i + 1..upto] == ids[i + 1..k] + [ids[k]];
      UpdateMembersSetsReduced(m, ids, measuredId, reduced, k, i);
    } else {
      var before := UpdateMembers(m, ids, measuredId, reduced, k);
      assert before.qubits[ids[i]].entangled == m[ids[i]].entangled;
    }
  }

  /** The reduced state of every position of an n-qubit register. */
  function ReducedStates(state: seq<Complex>, n: nat): (r: seq<seq<Complex>>)
    ensures |r| == n
    ensures forall i :: 0 <= i < n ==> r[i] == ReducedState(state, n, i)
  {
    seq(n, i requires 0 <= i < n => ReducedState(state, n, i))
  }

  /** What an update leaves behind: the groups, the registry and the result. */
  datatype Outcome = Outcome(groups: map<GroupId, Group>, qubits: map<QubitId, ManagedQubit>, result: Result<(), Error>)

  /**
   * `updateEntangledState(qubitId, measuredState, system)`, as intended:
   * an unknown qubit throws; an untagged one is a no-op; a tag whose group
   * is gone throws; otherwise the group's state collapses on the qubit's
   * bit, is normalised, and every other member gets its reduced state.
   */
  function UpdateSpec(groups: map<GroupId, Group>, qubits: map<QubitId, ManagedQubit>,
                      qubitId: QubitId, measured: int, sqrt: real -> real): Outcome
  {
    if qubitId !in qubits then Outcome(groups, qubits, Err(QubitNotFound(qubitId)))
    else match qubits[qubitId].entangled
      case None => Outcome(groups, qubits, Ok(()))
      case Some(g) =>
        if g !in groups then Outcome(groups, qubits, Err(GroupNotFound(g)))
        else
          var group := groups[g];
          var n := |group.qubits|;
          var collapsed := Collapse(|group.state|, n, IndexOf(group.qubits, qubitId), measured);
          if Norm2(collapsed) <= 0.0 then Outcome(groups, qubits, Err(ZeroNorm))
          else
            var normalized := CollapsedGroupState(group, qubitId, measured, sqrt);
            var members := UpdateMembers(qubits, group.qubits, qubitId, ReducedStates(normalized, n), n);
            Outcome(groups[g := group.(state := normalized)], members.qubits,
                    if members.error.Some? then Err(members.error.value) else Ok(()))
  }

  /** Every group's state has one amplitude per basis state of its qubits. */
  predicate WellSized(groups: map<GroupId, Group>)
  {
    forall g :: g in groups ==> |groups[g].state| == Pow2(|groups[g].qubits|)
  }

  /** An untagged qubit leaves everything as it was. */
  lemma UntaggedIsNoOp(groups: map<GroupId, Group>, qubits: map<QubitId, ManagedQubit>,
                       qubitId: QubitId, measured: int, sqrt: real -> real)
    requires qubitId in qubits && qubits[qubitId].entangled == None
    ensures UpdateSpec(groups, qubits, qubitId, measured, sqrt) == Outcome(groups, qubits, Ok(()))
  {
  }

  /** The state a tagged qubit's group collapses to, normalised by its norm. */
  function CollapsedGroupState(group: Group, qubitId: QubitId, measured: int, sqrt: real -> real): seq<Complex>
  {
    var collapsed := Collapse(|group.state|, |group.qubits|, IndexOf(group.qubits, qubitId), measured);
    Normalize(collapsed, if sqrt(Norm2(collapsed)) == 0.0 then 1.0 else sqrt(Norm2(collapsed)))
  }

  /** When the qubit's group exists and its collapse keeps some amplitude, the update takes its main branch. */
  lemma UpdateSpecTagged(groups: map<GroupId, Group>, qubits: map<QubitId, ManagedQubit>,
                         qubitId: QubitId, measured: int, sqrt: real -> real, g: GroupId)
    requires qubitId in qubits && qubits[qubitId].entangled == Some(g) && g in groups
    requires Norm2(Collapse(|groups[g].state|, |groups[g].qubits|, IndexOf(groups[g].qubits, qubitId), measured)) > 0.0
    ensures var group := groups[g];
      var normalized := CollapsedGroupState(group, qubitId, measured, sqrt);
      var members := UpdateMembers(qubits, group.qubits, qubitId, ReducedStates(normalized, |group.qubits|), |group.qubits|);
      UpdateSpec(groups, qubits, qubitId, measured, sqrt)
        == Outcome(groups[g := group.(state := normalized)], members.qubits,
                   if members.error.Some? then Err(members.error.value) else Ok(()))
  {
  }

  /**
   * For a tagged member of a well-sized group and a measured bit of 0 or 1,
   * the update never hits a zero norm, the group's new state is a unit
   * vector of the same length, and entry k of it is non-zero exactly when
   * the qubit's bit in k is the measured one.
   */
  lemma MeasuredGroupCollapses(groups: map<GroupId, Group>, qubits: map<QubitId, ManagedQubit>,
                               qubitId: QubitId, measured: nat, sqrt: real -> real, g: GroupId)
    requires IsSquareRoot(sqrt) && WellSized(groups) && measured <= 1
    requires qubitId in qubits && qubits[qubitId].entangled == Some(g) && g in groups
    requires qubitId in groups[g].qubits
    ensures var o := UpdateSpec(groups, qubits, qubitId, measured, sqrt);
      var group := groups[g];
      var target := IndexOf(group.qubits, qubitId);
      o.result != Err(ZeroNorm) && o.groups.Keys == groups.Keys &&
      |o.groups[g].state| == |group.state| &&
      Norm2(o.groups[g].state) == 1.0 &&
      forall k :: 0 <= k < |group.state| ==>
        (o.groups[g].state[k] != Zero <==> Bit(k, |group.qubits|, target) == measured)
  {
    var group := groups[g];
    var n := |group.qubits|;
    var target := IndexOf(group.qubits, qubitId);
    assert |group.state| == Pow2(n);
    assert 0 <= target < n;
    var collapsed := Collapse(|group.state|, n, target, measured);
    CollapseKeepsSome(n, target, measured);
    UpdateSpecTagged(groups, qubits, qubitId, measured, sqrt, g);
    NormalizedIsUnit(collapsed, sqrt);
    var normalized := CollapsedGroupState(group, qubitId, measured, sqrt);
    assert normalized == Normalize(collapsed, sqrt(Norm2(collapsed)));
    UpdateMembersFrame(qubits, group.qubits, qubitId, ReducedStates(normalized, n), n);
    var o := UpdateSpec(groups, qubits, qubitId, measured, sqrt);
    assert o.groups == groups[g := group.(state := normalized)];
    assert o.result != Err(ZeroNorm);
    forall k | 0 <= k < |group.state|
      ensures normalized[k] != Zero <==> Bit(k, n, target) == measured
    {
      CollapseByBit(n, target, measured, k);
      NormalizeKeepsZeros(collapsed, sqrt(Norm2(collapsed)), k);
    }
  }

  /**
   * When the registry holds every member of the measured qubit's group, the
   * update succeeds and each other member ends with the reduced state of
   * its (last) position in the group's new state.
   */
  lemma MeasuredGroupUpdatesMembers(groups: map<GroupId, Group>, qubits: map<QubitId, ManagedQubit>,
                                    qubitId: QubitId, measured: nat, sqrt: real -> real, g: GroupId)
    requires IsSquareRoot(sqrt) && WellSized(groups) && measured <= 1
    requires qubitId in qubits && qubits[qubitId].entangled == Some(g) && g in groups
    requires qubitId in groups[g].qubits
    requires forall i :: 0 <= i < |groups[g].qubits| ==> groups[g].qubits[i] in qubits
    ensures var o := UpdateSpec(groups, qubits, qubitId, measured, sqrt);
      var ids := groups[g].qubits;
      o.result == Ok(()) && g in o.groups &&
      forall i :: 0 <= i < |ids| && ids[i] != qubitId && ids[i] !in ids[i + 1..] ==>
        ids[i] in o.qubits &&
        o.qubits[ids[i]] == qubits[ids[i]].(state := ReducedState(o.groups[g].state, |ids|, i))
  {
    var group := groups[g];
    var ids := group.qubits;
    var n := |ids|;
    assert |group.state| == Pow2(n);
    CollapseKeepsSome(n, IndexOf(ids, qubitId), measured);
    UpdateSpecTagged(groups, qubits, qubitId, measured, sqrt, g);
    var normalized := CollapsedGroupState(group, qubitId, measured, sqrt);
    var reduced := ReducedStates(normalized, n);
    var members := UpdateMembers(qubits, ids, qubitId, reduced, n);
    UpdateMembersSucceed(qubits, ids, qubitId, reduced, n);
    var o := UpdateSpec(groups, qubits, qubitId, measured, sqrt);
    assert o == Outcome(groups[g := group.(state := normalized)], members.qubits, Ok(()));
    EveryMemberReduced(qubits, ids, qubitId, reduced);
  }

  /** `UpdateMembersSetsReduced` for every position of the whole member list at once. */
  lemma EveryMemberReduced(m: map<QubitId, ManagedQubit>, ids: seq<QubitId>,
                           measuredId: QubitId, reduced: seq<seq<Complex>>)
    requires |ids| == |reduced|
    requires forall j :: 0 <= j < |ids| ==> ids[j] in m
    ensures var r := UpdateMembers(m, ids, measuredId, reduced, |ids|);
      forall i :: 0 <= i < |ids| && ids[i] != measuredId && ids[i] !in ids[i + 1..] ==>
        ids[i] in r.qubits && r.qubits[ids[i]] == m[ids[i]].(state := reduced[i])
  {
    forall i | 0 <= i < |ids| && ids[i] != measuredId && ids[i] !in ids[i + 1..]
      ensures var r := UpdateMembers(m, ids, measuredId, reduced, |ids|);
        ids[i] in r.qubits && r.qubits[ids[i]] == m[ids[i]].(state := reduced[i])
    {
      assert ids[i + 1..|ids|] == ids[i + 1..];
      UpdateMembersSetsReduced(m, ids, measuredId, reduced, |ids|, i);
    }
  }

  class EntanglementManager {
    var entangledGroups: map<GroupId, Group>

    predicate Valid()
      reads this
    {
      WellSized(entangledGroups)
    }

    constructor ()
      ensures Valid() && entangledGroups == map[]
    {
      entangledGroups := map[];
    }

    /**
     * `entangleQubits(qubitIds, system)`: registers a Bell state over the
     * listed qubits under a fresh id, then tags the listed qubits one by
     * one; the first id the registry lacks throws, after the group is
     * registered and the ids before it are tagged. The id is the group's
     * `crypto.randomUUID()`, which is never empty (an empty tag would read
     * as "not entangled" to the other operations).
     */
    method EntangleQubits(qubitIds: seq<QubitId>, system: QubitRegistry, freshId: GroupId, s: real)
      returns (r: Result<(), Error>)
      requires Valid() && freshId != ""
      modifies this, system
      ensures Valid()
      ensures entangledGroups == old(entangledGroups)[freshId := Group(BellState(|qubitIds|, s), qubitIds)]
      ensures r.Ok? <==> forall i :: 0 <= i < |qubitIds| ==> qubitIds[i] in old(system.qubits)
      ensures r.Ok? ==> system.qubits == TagAll(old(system.qubits), qubitIds, freshId)
      ensures r.Err? ==> (exists j :: 0 <= j < |qubitIds| && qubitIds[j] !in old(system.qubits) &&
                            (forall i :: 0 <= i < j ==> qubitIds[i] in old(system.qubits)) &&
                            r == Err(QubitNotFound(qubitIds[j])) &&
                            system.qubits == TagAll(old(system.qubits), qubitIds[..j], freshId))
    {
      entangledGroups := entangledGroups[freshId := Group(BellState(|qubitIds|, s), qubitIds)];
      var i := 0;
      while i < |qubitIds|
        invariant 0 <= i <= |qubitIds|
        invariant entangledGroups == old(entangledGroups)[freshId := Group(BellState(|qubitIds|, s), qubitIds)]
        invariant forall j :: 0 <= j < i ==> qubitIds[j] in old(system.qubits)
        invariant system.qubits == TagAll(old(system.qubits), qubitIds[..i], freshId)
      {
        var id := qubitIds[i];
        TagAllTagsListed(old(system.qubits), qubitIds[..i], freshId);
        assert qubitIds[..i + 1][..i] == qubitIds[..i];
        if id !in system.qubits {
          return Err(QubitNotFound(id));
        }
        assert id in old(system.qubits);
        system.qubits := system.qubits[id := system.qubits[id].(entangled := Some(freshId))];
        i := i + 1;
      }
      assert qubitIds[..i] == qubitIds;
      r := Ok(());
    }

    /** `updateEntangledState(qubitId, measuredState, system)` as intended; `sqrt` is Math.sqrt. */
    method UpdateEntangledState(qubitId: QubitId, measured: int, system: QubitRegistry, sqrt: real -> real)
      returns (r: Result<(), Error>)
      requires Valid()
      modifies this, system
      ensures Valid()
      ensures Outcome(entangledGroups, system.qubits, r)
           == UpdateSpec(old(entangledGroups), old(system.qubits), qubitId, measured, sqrt)
    {
      if qubitId !in system.qubits {
        return Err(QubitNotFound(qubitId));
      }
      var groupId := system.qubits[qubitId].entangled;
      if groupId.None? {
        return Ok(());
      }
      var g := groupId.value;
      if g !in entangledGroups {
        return Err(GroupNotFound(g));
      }
      var group := entangledGroups[g];
      var collapsed := Collapse(|group.state|, |group.qubits|, IndexOf(group.qubits, qubitId), measured);
      if Norm2(collapsed) <= 0.0 {
        return Err(ZeroNorm);
      }
      UpdateSpecTagged(entangledGroups, system.qubits, qubitId, measured, sqrt, g);
      r := CollapseGroup(g, qubitId, measured, system, sqrt);
    }

    /** The main branch of `updateEntangledState`: collapse, normalise, then update the members. */
    method CollapseGroup(g: GroupId, qubitId: QubitId, measured: int, system: QubitRegistry, sqrt: real -> real)
      returns (r: Result<(), Error>)
      requires Valid() && g in entangledGroups
      modifies this, system
      ensures Valid()
      ensures var group := old(entangledGroups)[g];
        var normalized := CollapsedGroupState(group, qubitId, measured, sqrt);
        var members := UpdateMembers(old(system.qubits), group.qubits, qubitId,
                                     ReducedStates(normalized, |group.qubits|), |group.qubits|);
        entangledGroups == old(entangledGroups)[g := group.(state := normalized)] &&
        system.qubits == members.qubits &&
        r == if members.error.Some? then Err(members.error.value) else Ok(())
    {
      var group := entangledGroups[g];
      var normalized := CollapsedGroupState(group, qubitId, measured, sqrt);
      entangledGroups := entangledGroups[g := group.(state := normalized)];
      var error := UpdateMemberStates(system, group.qubits, qubitId, normalized);
      r := if error.Some? then Err(error.value) else Ok(());
    }

    /**
     * `breakEntanglement(qubitId, system)`: deletes the qubit's group and
     * clears its tag; the other members keep theirs.
     */
    method BreakEntanglement(qubitId: QubitId, system: QubitRegistry) returns (r: Result<(), Error>)
      requires Valid()
      modifies this, system
      ensures Valid()
      ensures qubitId !in old(system.qubits) ==>
        r == Err(QubitNotFound(qubitId)) && entangledGroups == old(entangledGroups) && system.qubits == old(system.qubits)
      ensures qubitId in old(system.qubits) && old(system.qubits)[qubitId].entangled.None? ==>
        r == Ok(()) && entangledGroups == old(entangledGroups) && system.qubits == old(system.qubits)
      ensures qubitId in old(system.qubits) && old(system.qubits)[qubitId].entangled.Some? ==>
        r == Ok(()) &&
        entangledGroups == old(entangledGroups) - {old(system.qubits)[qubitId].entangled.value} &&
        system.qubits == old(system.qubits)[qubitId := old(system.qubits)[qubitId].(entangled := None)]
    {
      if qubitId !in system.qubits {
        return Err(QubitNotFound(qubitId));
      }
      var groupId := system.qubits[qubitId].entangled;
      if groupId.None? {
        return Ok(());
      }
      entangledGroups := entangledGroups - {groupId.value};
      system.qubits := system.qubits[qubitId := system.qubits[qubitId].(entangled := None)];
      r := Ok(());
    }
  }

  // ---------------------------------------------------------------------------
  // The update as written

  /** What a group's `state` field holds: an amplitude array, or (as written) the whole Bell record. */
  datatype StoredState =
    | AmplitudeArray(amplitudes: seq<Complex>)
    | BellRecord(id: GroupId, state: seq<Complex>, qubits: seq<QubitId>)

  datatype ScriptError = NotAFunction(expression: string)

  /** The group entry `entangleQubits` stores as written: `{ state: entangledState, qubits }`. */
  function StoredGroupAsWritten(qubitIds: seq<QubitId>, freshId: GroupId, s: real): (r: StoredState)
    ensures r.BellRecord? && r.state == BellState(|qubitIds|, s)
  {
    BellRecord(freshId, BellState(|qubitIds|, s), [])
  }

  /** `group.state.map(...)`: only an array has `map`. */
  function CollapseAsWritten(stored: StoredState, n: nat, target: int, measured: int): (r: Result<seq<Complex>, ScriptError>)
    ensures r.Ok? <==> stored.AmplitudeArray?
  {
    match stored
    case AmplitudeArray(amplitudes) => Ok(Collapse(|amplitudes|, n, target, measured))
    case BellRecord(_, _, _) => Err(NotAFunction("group.state.map"))
  }

  /** As written, collapsing the group of any tagged qubit throws, because the stored state is a record. */
  lemma UpdateAsWrittenThrows(qubitIds: seq<QubitId>, freshId: GroupId, s: real, target: int, measured: int)
    ensures CollapseAsWritten(StoredGroupAsWritten(qubitIds, freshId, s), |qubitIds|, target, measured)
         == Err(NotAFunction("group.state.map"))
  {
  }

  /** `state.map(c => c.divide(norm))` as written: the first element's missing `divide` throws. */
  function NormalizeAsWritten(v: seq<Complex>, norm: real): (r: Result<seq<Complex>, ScriptError>)
    ensures r.Ok? ==> r.value == v
  {
    if |v| == 0 then Ok([]) else Err(NotAFunction("c.divide"))
  }

  /** As written, normalising throws for every non-empty state, where the intended division succeeds. */
  lemma NormalizeAsWrittenThrows(v: seq<Complex>, norm: real)
    requires norm != 0.0
    ensures NormalizeAsWritten(v, norm).Err? <==> |v| > 0
    ensures NormalizeAsWritten(v, norm).Ok? ==> NormalizeAsWritten(v, norm).value == Normalize(v, norm)
  {
  }
}
