/**
 * The state logic of the React component docs/QgamingX/qgaming-x-component.tsx:
 * every tick the quantum state moves to the next value of a fixed cycle,
 * and five processing flags switch on at increasing thresholds of it.
 */
module QgamingComponent {

  /** `states`: the cycle the quantum state walks through. */
  const States: seq<real> := [0.0, 0.25, 0.35, 0.5, 0.6, 0.8, 1.0]

  /** `states.indexOf(x)`: the first position of x, or −1 when absent. */
  function IndexOf(x: real): (r: int)
    ensures -1 <= r < |States|
    ensures r == -1 <==> x !in States
    ensures r >= 0 ==> States[r] == x && forall k :: 0 <= k < r ==> States[k] != x
  {
    if x == 0.0 then 0 else if x == 0.25 then 1 else if x == 0.35 then 2
    else if x == 0.5 then 3 else if x == 0.6 then 4 else if x == 0.8 then 5
    else if x == 1.0 then 6 else -1
  }

  /** The updater passed to `setQuantumState`: `states[(indexOf(prev) + 1) % states.length]`. */
  function NextState(prev: real): (r: real)
    ensures r in States
  {
    States[(IndexOf(prev) + 1) % |States|]
  }

  /** A listed value steps to its successor, the last one wraps to 0, and an unlisted one restarts at 0. */
  lemma NextStateCycles(k: nat)
    requires k < |States|
    ensures NextState(States[k]) == if k + 1 < |States| then States[k + 1] else 0.0
  {
    assert IndexOf(States[k]) == k by {
      if k == 0 {} else if k == 1 {} else if k == 2 {} else if k == 3 {} else if k == 4 {} else if k == 5 {} else {}
    }
    if k + 1 < |States| {
      assert (k + 1) % |States| == k + 1;
    } else {
      assert (k + 1) % |States| == 0;
    }
  }

  lemma NextOfUnlisted(x: real)
    requires x !in States
    ensures NextState(x) == 0.0
  {
  }

  /** The state after n ticks from x. */
  function Iterate(x: real, n: nat): real
  {
    if n == 0 then x else NextState(Iterate(x, n - 1))
  }

  /** Whatever the starting value, the state is a listed one once it has ticked at least once. */
  lemma IterateListed(x: real, n: nat)
    requires n > 0
    ensures Iterate(x, n) in States
  {
  }

  /** Walking position k forward n steps lands on position (k + n) mod 7. */
  lemma {:induction false} IterateWalks(k: nat, n: nat)
    requires k < |States|
    ensures Iterate(States[k], n) == States[(k + n) % |States|]
  {
    if n > 0 {
      IterateWalks(k, n - 1);
      WalkStep(k, n, Iterate(States[k], n - 1));
    }
  }

  /** One more tick moves the position from (k + n − 1) mod 7 to (k + n) mod 7. */
  lemma WalkStep(k: nat, n: nat, x: real)
    requires k < |States| && n > 0
    requires x == States[(k + (n - 1)) % |States|]
    ensures NextState(x) == States[(k + n) % |States|]
  {
    NextStateCycles((k + (n - 1)) % |States|);
    ModSuccessor(k + (n - 1), k + n);
  }

  /** Position p = m + 1 is the successor of position m around the cycle. */
  lemma ModSuccessor(m: nat, p: nat)
    requires p == m + 1
    ensures p % |States| == if m % |States| + 1 < |States| then m % |States| + 1 else 0
  {
  }

  /** Every listed value comes back after any whole number of rounds of seven ticks. */
  lemma FullRoundReturns(k: nat, rounds: nat)
    requires k < |States|
    ensures Iterate(States[k], rounds * |States|) == States[k]
  {
    var n := rounds * |States|;
    IterateWalks(k, n);
    RoundsVanish(k, rounds);
    assert States[(k + n) % |States|] == States[k];
  }

  lemma RoundsVanish(k: nat, rounds: nat)
    requires k < |States|
    ensures (k + rounds * |States|) % |States| == k
  {
    var x := k + rounds * 7;
    assert x == 7 * rounds + k;
  }

  /** `processingStates`: each flag is on when the state reaches its threshold. */
  datatype ProcessingStates = ProcessingStates(mapping: bool, graphics: bool, ai: bool, inputs: bool, integration: bool)

  function Flags(q: real): (f: ProcessingStates)
    ensures f.mapping <==> q >= 0.25
    ensures f.graphics <==> q >= 0.35
    ensures f.ai <==> q >= 0.5
    ensures f.inputs <==> q >= 0.6
    ensures f.integration <==> q >= 0.8
  {
    ProcessingStates(q >= 0.25, q >= 0.35, q >= 0.5, q >= 0.6, q >= 0.8)
  }

  /** The flags are nested: integration ⇒ inputs ⇒ ai ⇒ graphics ⇒ mapping. */
  lemma FlagsNested(q: real)
    ensures Flags(q).integration ==> Flags(q).inputs
    ensures Flags(q).inputs ==> Flags(q).ai
    ensures Flags(q).ai ==> Flags(q).graphics
    ensures Flags(q).graphics ==> Flags(q).mapping
  {
  }

  /** The number of flags on. */
  function FlagCount(f: ProcessingStates): nat
  {
    (if f.mapping then 1 else 0) + (if f.graphics then 1 else 0) + (if f.ai then 1 else 0) +
    (if f.inputs then 1 else 0) + (if f.integration then 1 else 0)
  }

  /**
   * Along the cycle the flags switch on one at a time: at position k
   * exactly min(k, 5) flags are on, all off at 0 and all on at 1.
   */
  lemma FlagsAlongCycle(k: nat)
    requires k < |States|
    ensures FlagCount(Flags(States[k])) == if k < 5 then k else 5
    ensures States[k] == 0.0 ==> Flags(States[k]) == ProcessingStates(false, false, false, false, false)
    ensures States[k] == 1.0 ==> Flags(States[k]) == ProcessingStates(true, true, true, true, true)
  {
  }
}
