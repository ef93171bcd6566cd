/**
 * The bookkeeping of developers/OS/Qintergrate/quantum-optimizer.js: the
 * per-tick phase machine of `updateState` (mapping, processing,
 * integration, reset) with its clamps, the byte-size formatter, the base
 * compression ratio per file type and the ratio schedule of
 * `simulateCompression`. Each `Math.random()` draw is a parameter; the
 * DOM, the log and the timers are left out.
 */
module Optimizer {
  import opened Reals

  // ---------------------------------------------------------------------------
  // updateState

  /** The four fields `updateState` reads and writes. */
  datatype Metrics = Metrics(state: real, entropy: real, optimization: real, compressionRatio: real)

  /** The ranges the fields keep from the constructor on. */
  predicate InRange(m: Metrics)
  {
    0.0 <= m.state <= 1.0 && 0.0 <= m.entropy <= 1.0 &&
    0.0 <= m.optimization <= 100.0 && 1.0 <= m.compressionRatio <= 2.0
  }

  /** The phase a state value selects. */
  datatype Phase = Mapping | Processing | Integration | Reset

  function PhaseOf(state: real): (p: Phase)
    ensures p == Mapping <==> state < 0.1
    ensures p == Processing <==> 0.1 <= state < 0.5
    ensures p == Integration <==> 0.5 <= state < 1.0
    ensures p == Reset <==> state >= 1.0
  {
    if state < 0.1 then Mapping
    else if state < 0.5 then Processing
    else if state < 1.0 then Integration
    else Reset
  }

  /**
   * One `updateState()` with its `Math.random()` draw: the phase's update,
   * then state clamped to [0, 1] and optimization capped at 100.
   */
  function Step(m: Metrics, draw: real): (r: Metrics)
    requires InRange(m)
    ensures InRange(r)
    ensures r.entropy <= m.entropy
    ensures m.optimization <= r.optimization
    ensures PhaseOf(m.state) == Reset ==> r == m.(state := 0.1)
    ensures PhaseOf(m.state) == Mapping && draw >= 0.0 ==> m.state < r.state
    ensures PhaseOf(m.state) != Integration ==> r.compressionRatio == m.compressionRatio
    ensures PhaseOf(m.state) == Integration ==> r.compressionRatio == 1.0 + m.optimization / 100.0
  {
    var next :=
      match PhaseOf(m.state)
      case Mapping => m.(state := m.state + 0.001 * (draw + 0.5), entropy := Max(0.0, m.entropy - 0.001))
      case Processing =>
        m.(state := m.state + 0.003 * (draw - 0.2), entropy := Max(0.0, m.entropy - 0.005),
           optimization := m.optimization + 0.1)
      case Integration =>
        m.(state := m.state + 0.002 * (draw - 0.5), compressionRatio := 1.0 + m.optimization / 100.0)
      case Reset => m.(state := 0.1);
    next.(state := Max(0.0, Min(1.0, next.state)), optimization := Min(100.0, next.optimization))
  }

  /** The metrics after one tick per draw; the ranges hold throughout. */
  function Run(m: Metrics, draws: seq<real>): (r: Metrics)
    requires InRange(m)
    ensures InRange(r)
  {
    if |draws| == 0 then m else Step(Run(m, draws[..|draws| - 1]), draws[|draws| - 1])
  }

  /** Over any run of ticks entropy never rises and optimization never falls. */
  lemma {:induction false} EntropyNeverRises(m: Metrics, draws: seq<real>)
    requires InRange(m)
    ensures Run(m, draws).entropy <= m.entropy
    ensures m.optimization <= Run(m, draws).optimization
  {
    if |draws| > 0 {
      EntropyNeverRises(m, draws[..|draws| - 1]);
    }
  }

  class QuantumOptimizer {
    var state: real
    var entropy: real
    var optimization: real
    var compressionRatio: real
    var running: bool

    function Snapshot(): Metrics
      reads this
    {
      Metrics(state, entropy, optimization, compressionRatio)
    }

    predicate Valid()
      reads this
    {
      InRange(Snapshot())
    }

    /** state 0, entropy 1, optimization 0, ratio 1, running. */
    constructor ()
      ensures Valid()
      ensures state == 0.0 && entropy == 1.0 && optimization == 0.0 && compressionRatio == 1.0 && running
    {
      state := 0.0;
      entropy := 1.0;
      optimization := 0.0;
      compressionRatio := 1.0;
      running := true;
    }

    /** `updateState()` with its `Math.random()` draw. */
    method UpdateState(draw: real)
      requires Valid()
      modifies this
      ensures Valid()
      ensures Snapshot() == Step(old(Snapshot()), draw)
      ensures running == old(running)
    {
      if state < 0.1 {
        state := state + 0.001 * (draw + 0.5);
        entropy := Max(0.0, entropy - 0.001);
      } else if state < 0.5 {
        state := state + 0.003 * (draw - 0.2);
        entropy := Max(0.0, entropy - 0.005);
        optimization := optimization + 0.1;
      } else if state < 1.0 {
        state := state + 0.002 * (draw - 0.5);
        compressionRatio := 1.0 + optimization / 100.0;
      } else {
        state := 0.1;
      }
      state := Max(0.0, Min(1.0, state));
      optimization := Min(100.0, optimization);
    }

    /** `start()`. */
    method Start()
      modifies this
      ensures running && Snapshot() == old(Snapshot())
    {
      running := true;
    }

    /** `stop()`. */
    method Stop()
      modifies this
      ensures !running && Snapshot() == old(Snapshot())
    {
      running := false;
    }

    /**
     * The ratio schedule of `simulateCompression(file, fileType)` for a
     * base ratio: the ratio shown at each of the 50 steps, none when the
     * optimizer is stopped on entry. The `await` between steps is left
     * out, so `running` cannot change during the loop.
     */
    method SimulateCompression(base: real) returns (ratios: seq<real>)
      ensures running ==> |ratios| == TotalSteps
      ensures !running ==> ratios == []
      ensures forall i :: 0 <= i < |ratios| ==> ratios[i] == CompressionRatio(base, i)
    {
      ratios := [];
      var i := 0;
      while i < TotalSteps
        invariant 0 <= i <= TotalSteps
        invariant |ratios| == (if running then i else 0)
        invariant forall k :: 0 <= k < |ratios| ==> ratios[k] == CompressionRatio(base, k)
      {
        if !running {
          break;
        }
        var progress := (i + 1) as real / TotalSteps as real;
        ratios := ratios + [1.0 + (base - 1.0) * progress];
        i := i + 1;
      }
    }
  }

  // ---------------------------------------------------------------------------
  // Compression ratio

  const TotalSteps: nat := 50

  /** `getBaseCompressionRatio(fileType)` with its `Math.random()` draw. */
  function BaseCompressionRatio(fileType: string, draw: real): (r: real)
    ensures fileType !in {"qmp3", "qmp4", "qgame"} ==> r == 2.0
    ensures 0.0 <= draw < 1.0 && fileType == "qmp3" ==> 3.0 <= r < 5.0
    ensures 0.0 <= draw < 1.0 && fileType == "qmp4" ==> 4.0 <= r < 7.0
    ensures 0.0 <= draw < 1.0 && fileType == "qgame" ==> 5.0 <= r < 9.0
  {
    match fileType
    case "qmp3" => 3.0 + draw * 2.0
    case "qmp4" => 4.0 + draw * 3.0
    case "qgame" => 5.0 + draw * 4.0
    case _ => 2.0
  }

  /** The ratio shown at step i: 1 + (base − 1)·(i + 1)/50. */
  function CompressionRatio(base: real, i: nat): (r: real)
    ensures i + 1 == TotalSteps ==> r == base
    ensures base >= 1.0 && i < TotalSteps ==> 1.0 <= r <= base
  {
    FractionOf(base - 1.0, Progress(i));
    1.0 + Portion(base - 1.0, Progress(i))
  }

  /** How far step i is through the run: (i + 1)/50, reaching 1 at the last step. */
  function Progress(i: nat): (p: real)
    ensures p > 0.0
    ensures i < TotalSteps ==> p <= 1.0
    ensures i + 1 == TotalSteps ==> p == 1.0
  {
    (i + 1) as real / TotalSteps as real
  }

  /** The share p of an amount d, kept as one term so that the bounds below stay linear. */
  function Portion(d: real, p: real): real
  {
    d * p
  }

  /** A fraction in [0, 1] of a non-negative amount lies between 0 and the amount. */
  lemma FractionOf(d: real, p: real)
    ensures d >= 0.0 && 0.0 <= p <= 1.0 ==> 0.0 <= Portion(d, p) <= d
    ensures p == 1.0 ==> Portion(d, p) == d
  {
    if d > 0.0 && 0.0 <= p <= 1.0 {
      PositiveScale(d, p);
      PositiveScale(d, 1.0 - p);
      assert d - d * p == d * (1.0 - p);
    }
  }

  /**
   * The schedule climbs from just above 1 to exactly the base ratio at the
   * last step, rising at every step when the base exceeds 1.
   */
  lemma CompressionSchedule(base: real, i: nat, j: nat)
    requires base > 1.0 && i < j < TotalSteps
    ensures CompressionRatio(base, TotalSteps - 1) == base
    ensures 1.0 < CompressionRatio(base, i) < CompressionRatio(base, j) <= base
  {
    Rising(base - 1.0, Progress(i), Progress(j));
  }

  /** A positive amount scaled by two increasing fractions of at most 1. */
  lemma Rising(d: real, pi: real, pj: real)
    requires d > 0.0 && 0.0 < pi < pj <= 1.0
    ensures 0.0 < Portion(d, pi) < Portion(d, pj) <= d
  {
    PositiveScale(d, pi);
    PositiveScale(d, pj - pi);
    assert d * (pj - pi) == d * pj - d * pi;
    PositiveScale(d, 1.0 - pj);
    assert d * (1.0 - pj) == d - d * pj;
  }

  lemma PositiveScale(d: real, e: real)
    requires d > 0.0 && e >= 0.0
    ensures d * e >= 0.0 && (e > 0.0 ==> d * e > 0.0)
  {
  }

  // ---------------------------------------------------------------------------
  // formatSize

  const Sizes: seq<string> := ["B", "KB", "MB", "GB"]

  function Pow1024(i: nat): (r: real)
    ensures r >= 1.0
  {
    if i == 0 then 1.0 else 1024.0 * Pow1024(i - 1)
  }

  /**
   * `formatSize(bytes)` without the `toFixed(1)` rendering: the scaled
   * value and the unit. The size is divided by 1024 while it is at least
   * 1024 and a larger unit remains.
   */
  method FormatSize(bytes: real) returns (size: real, unit: string)
    ensures exists i :: (0 <= i < |Sizes| && unit == Sizes[i] && size * Pow1024(i) == bytes &&
                         (i < |Sizes| - 1 ==> size < 1024.0) && (i > 0 ==> size >= 1.0))
    ensures bytes < 1024.0 ==> unit == "B" && size == bytes
  {
    var i := 0;
    size := bytes;
    while size >= 1024.0 && i < |Sizes| - 1
      invariant 0 <= i < |Sizes|
      invariant size * Pow1024(i) == bytes
      invariant i > 0 ==> size >= 1.0
      invariant bytes < 1024.0 ==> i == 0
    {
      ScaleDown(size, i);
      size := size / 1024.0;
      i := i + 1;
    }
    unit := Sizes[i];
  }

  lemma ScaleDown(size: real, i: nat)
    requires size >= 1024.0
    ensures (size / 1024.0) * Pow1024(i + 1) == size * Pow1024(i)
    ensures size / 1024.0 >= 1.0
  {
    calc {
      (size / 1024.0) * Pow1024(i + 1);
      == (size / 1024.0) * (1024.0 * Pow1024(i));
      == ((size / 1024.0) * 1024.0) * Pow1024(i);
      == size * Pow1024(i);
    }
  }
}
