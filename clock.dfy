/**
 * The state behind pages/features/js/QuantumClock.js: a quantum state that
 * steps by 0.1 modulo 1 every second, a coherence that hovering raises and
 * time decays between 0.5 and 1, the zero-knowledge-proof level of the time
 * of day, and the particles the clock spawns and animates. The clock time
 * (`new Date()`), each `Math.random()` draw and the window centre are
 * parameters; the clock hands, meters and canvas drawing are left out.
 */
module QuantumClocks {
  import opened Config
  import opened Particles
  import opened Reals

  /** JavaScript's `x % 1` for a non-negative x: the fractional part. */
  function Frac(x: real): (r: real)
    requires x >= 0.0
    ensures 0.0 <= r < 1.0
    ensures (x - r).Floor as real == x - r
  {
    x - x.Floor as real
  }

  /** `(quantumState + STATE_CHANGE_RATE) % 1`. */
  function NextQuantumState(q: real): (r: real)
    requires 0.0 <= q < 1.0
    ensures 0.0 <= r < 1.0
    ensures q + StateChangeRate < 1.0 ==> r == q + StateChangeRate
    ensures q + StateChangeRate >= 1.0 ==> r == q + StateChangeRate - 1.0
  {
    Frac(q + StateChangeRate)
  }

  /** The quantum state after k clock updates. */
  function QuantumAfter(q: real, k: nat): (r: real)
    requires 0.0 <= q < 1.0
    ensures 0.0 <= r < 1.0
  {
    if k == 0 then q else NextQuantumState(QuantumAfter(q, k - 1))
  }

  lemma FracOfShift(x: real, n: int)
    requires x >= 0.0 && x - n as real >= 0.0
    ensures Frac(x - n as real) == Frac(x)
  {
    var f := (x - n as real).Floor;
    assert f as real <= x - n as real < f as real + 1.0;
    assert (f + n) as real <= x < (f + n) as real + 1.0;
    assert x.Floor == f + n;
  }

  /** After k updates the quantum state is the fractional part of q + k/10. */
  lemma {:induction false} QuantumAfterIsFrac(q: real, k: nat)
    requires 0.0 <= q < 1.0
    ensures QuantumAfter(q, k) == Frac(q + k as real * StateChangeRate)
  {
    if k > 0 {
      QuantumAfterIsFrac(q, k - 1);
      var x := q + (k - 1) as real * StateChangeRate;
      var p := QuantumAfter(q, k - 1);
      assert p == x - x.Floor as real;
      FracOfShift(x + StateChangeRate, x.Floor);
      assert p + StateChangeRate == x + StateChangeRate - x.Floor as real;
    }
  }

  /** Ten updates bring the quantum state back to where it was. */
  lemma TenUpdatesReturn(q: real)
    requires 0.0 <= q < 1.0
    ensures QuantumAfter(q, 10) == q
  {
    QuantumAfterIsFrac(q, 10);
    FracOfShift(q + 1.0, 1);
  }

  /** The `mouseenter` rule: coherence + 0.2, capped at the maximum. */
  function Hovered(c: real): (r: real)
    ensures r <= MaxCoherence && (c <= r || r == MaxCoherence)
  {
    Min(MaxCoherence, c + 0.2)
  }

  /** The `updateClock` rule when not hovered: coherence − 0.01, floored at the minimum. */
  function Decayed(c: real): (r: real)
    ensures r >= MinCoherence && (r <= c || r == MinCoherence)
  {
    Max(MinCoherence, c - 0.01)
  }

  function DecayedTimes(c: real, k: nat): real
  {
    if k == 0 then c else Decayed(DecayedTimes(c, k - 1))
  }

  /** k decays lower the coherence by k/100 until it reaches the minimum, where it stays. */
  lemma {:induction false} DecayedTimesIs(c: real, k: nat)
    requires c >= MinCoherence
    ensures DecayedTimes(c, k) == Max(MinCoherence, c - 0.01 * k as real)
  {
    if k > 0 {
      DecayedTimesIs(c, k - 1);
    }
  }

  /** Starting from full coherence, fifty unhovered seconds reach the minimum. */
  lemma FiftyDecaysReachMinimum()
    ensures DecayedTimes(MaxCoherence, 50) == MinCoherence
  {
    DecayedTimesIs(MaxCoherence, 50);
  }

  /** `calculateZKPState(hours, minutes)`: the level of the fraction of the day gone. */
  function ClockZkp(hours: int, minutes: int): (z: real)
    ensures IsZkpLevel(z)
  {
    ZkpLevel((hours * 60 + minutes) as real / 1440.0)
  }

  /**
   * In whole minutes since midnight: level 0 up to 07:55, 0.5 from 07:56
   * to 15:50, and 1 from 15:51.
   */
  lemma ClockZkpByMinute(hours: int, minutes: int)
    ensures ClockZkp(hours, minutes) == 0.0 <==> hours * 60 + minutes <= 475
    ensures ClockZkp(hours, minutes) == 0.5 <==> 476 <= hours * 60 + minutes <= 950
    ensures ClockZkp(hours, minutes) == 1.0 <==> 951 <= hours * 60 + minutes
  {
    var t := hours * 60 + minutes;
    assert t as real / 1440.0 < 0.33 <==> t as real < 475.2;
    assert t as real / 1440.0 < 0.66 <==> t as real < 950.4;
  }

  /** How many particles a spawning update creates: 1 + ⌊2·zkp⌋. */
  function SpawnCount(z: real): (n: nat)
    requires IsZkpLevel(z)
    ensures n == if z == 0.0 then 1 else if z == 0.5 then 2 else 3
  {
    1 + (z * 2.0).Floor
  }

  /** The four `Math.random()` draws of one new particle. */
  datatype ParticleDraws = ParticleDraws(size: real, speedX: real, speedY: real, hue: real)

  /** No particle appears twice. */
  predicate Distinct(ps: seq<Particle>)
  {
    forall i, j :: 0 <= i < j < |ps| ==> ps[i] != ps[j]
  }

  /** The positions below n of the particles of `ps` with life left, in increasing order. */
  function LiveIndices(ps: seq<Particle>, n: nat): (idx: seq<nat>)
    requires n <= |ps|
    reads set p | p in ps
    ensures forall i :: 0 <= i < |idx| ==> idx[i] < n && ps[idx[i]].life > 0.0
    ensures forall i, j :: 0 <= i < j < |idx| ==> idx[i] < idx[j]
  {
    if n == 0 then []
    else
      var rest := LiveIndices(ps, n - 1);
      if ps[n - 1].life > 0.0 then rest + [n - 1] else rest
  }

  /** Every live position below n is listed. */
  lemma {:induction false} LiveIndicesComplete(ps: seq<Particle>, n: nat)
    requires n <= |ps|
    ensures forall k :: 0 <= k < n && ps[k].life > 0.0 ==> k in LiveIndices(ps, n)
  {
    if n > 0 {
      LiveIndicesComplete(ps, n - 1);
    }
  }

  /** The particles of `ps` with life left: `particles.filter(p => p.life > 0)`. */
  function Alive(ps: seq<Particle>): (r: seq<Particle>)
    reads set p | p in ps
    ensures |r| <= |ps|
  {
    if |ps| == 0 then []
    else
      var rest := Alive(ps[..|ps| - 1]);
      var last := ps[|ps| - 1];
      assert ps == ps[..|ps| - 1] + [last];
      if last.life > 0.0 then rest + [last] else rest
  }

  /** Filtering the first n particles extends the filter of the first n − 1 by the n-th, if it is alive. */
  lemma AliveStep(ps: seq<Particle>, n: nat)
    requires 0 < n <= |ps|
    ensures Alive(ps[..n]) == Alive(ps[..n - 1]) + (if ps[n - 1].life > 0.0 then [ps[n - 1]] else [])
  {
    assert ps[..n][..n - 1] == ps[..n - 1] && ps[..n][n - 1] == ps[n - 1];
  }

  /**
   * A list paired position by position with indices into `ps` stays paired
   * when both are extended by the element at n and by n.
   */
  lemma ExtendPairing<T>(ps: seq<T>, rest: seq<T>, idx: seq<nat>, n: nat, live: bool)
    requires n < |ps| && |rest| == |idx|
    requires forall i :: 0 <= i < |idx| ==> idx[i] < |ps| && rest[i] == ps[idx[i]]
    ensures var r, all := rest + (if live then [ps[n]] else []), idx + (if live then [n] else []);
      |r| == |all| && forall i :: 0 <= i < |r| ==> all[i] < |ps| && r[i] == ps[all[i]]
  {
  }

  /**
   * The survivors keep their order: survivor i of the first n particles is
   * the particle at the i-th live position below n.
   */
  lemma {:induction false} AliveInOrder(ps: seq<Particle>, n: nat)
    requires n <= |ps|
    ensures |Alive(ps[..n])| == |LiveIndices(ps, n)|
    ensures forall i :: 0 <= i < |Alive(ps[..n])| ==> Alive(ps[..n])[i] == ps[LiveIndices(ps, n)[i]]
  {
    if n > 0 {
      AliveInOrder(ps, n - 1);
      AliveStep(ps, n);
      var rest, idx := Alive(ps[..n - 1]), LiveIndices(ps, n - 1);
      var live := ps[n - 1].life > 0.0;
      assert LiveIndices(ps, n) == idx + (if live then [n - 1] else []);
      ExtendPairing(ps, rest, idx, n - 1, live);
    }
  }

  /** The survivors are exactly the particles of `ps` with life left. */
  lemma AliveMembers(ps: seq<Particle>)
    ensures forall i :: 0 <= i < |Alive(ps)| ==> Alive(ps)[i] in ps && Alive(ps)[i].life > 0.0
    ensures forall k :: 0 <= k < |ps| && ps[k].life > 0.0 ==> ps[k] in Alive(ps)
  {
    AliveInOrder(ps, |ps|);
    LiveIndicesComplete(ps, |ps|);
    assert ps[..|ps|] == ps;
    var r, idx := Alive(ps), LiveIndices(ps, |ps|);
    forall k | 0 <= k < |ps| && ps[k].life > 0.0
      ensures ps[k] in r
    {
      var j :| 0 <= j < |idx| && idx[j] == k;
      assert r[j] == ps[k];
    }
  }

  /** Strictly increasing indices below n number at most n. */
  lemma {:induction false} IndicesBound(idx: seq<nat>, n: nat)
    requires forall i :: 0 <= i < |idx| ==> idx[i] < n
    requires forall i, j :: 0 <= i < j < |idx| ==> idx[i] < idx[j]
    ensures |idx| <= n
  {
    if |idx| > 0 {
      var last := idx[|idx| - 1];
      IndicesBound(idx[..|idx| - 1], last);
    }
  }

  /** Filtering keeps distinct particles distinct. */
  lemma AliveDistinct(ps: seq<Particle>)
    requires Distinct(ps)
    ensures Distinct(Alive(ps))
  {
    var r := Alive(ps);
    var idx := LiveIndices(ps, |ps|);
    AliveInOrder(ps, |ps|);
    assert ps[..|ps|] == ps;
    forall i, j | 0 <= i < j < |r|
      ensures r[i] != r[j]
    {
      assert idx[i] < idx[j];
    }
  }

  /**
   * What one `particle.quantumState = q; particle.update()` does to p, with
   * `around` its surroundings: the level follows q, the mode's motion is
   * applied, the life drains, and the size, hue and mode stay.
   */
  twostate predicate Stepped(p: Particle, q: real, around: Surroundings)
    reads p
  {
    ZkpMonotone(q, q);
    p.quantumState == q && p.zkpState == ZkpLevel(q) && p.mode == old(p.mode) &&
    p.Kin() == Motion(old(p.mode), ZkpLevel(q), around, old(p.Kin())) &&
    p.life == old(p.life) - Drain(ZkpLevel(q)) &&
    p.size == old(p.size) && p.hue == old(p.hue)
  }

  class QuantumClock {
    var quantumState: real
    var coherence: real
    var particles: seq<Particle>
    var mode: string
    var isClockHovered: bool
    var zkpState: real

    /**
     * The quantum state is in [0, 1), the coherence between its bounds, the
     * level one of the three, and no particle is in the list twice.
     */
    predicate Valid()
      reads this
    {
      0.0 <= quantumState < 1.0 && MinCoherence <= coherence <= MaxCoherence && IsZkpLevel(zkpState) &&
      Distinct(particles)
    }

    /** quantum state 0, full coherence, no particles, "normal" mode, not hovered, level 0. */
    constructor ()
      ensures Valid()
      ensures quantumState == 0.0 && coherence == 1.0 && particles == [] && mode == "normal"
      ensures !isClockHovered && zkpState == 0.0
    {
      quantumState := 0.0;
      coherence := 1.0;
      particles := [];
      mode := "normal";
      isClockHovered := false;
      zkpState := 0.0;
    }

    /** The `mouseenter` handler. */
    method MouseEnter()
      requires Valid()
      modifies this
      ensures Valid()
      ensures isClockHovered && coherence == Hovered(old(coherence))
      ensures quantumState == old(quantumState) && particles == old(particles) && mode == old(mode)
    {
      isClockHovered := true;
      coherence := Min(MaxCoherence, coherence + 0.2);
    }

    /** The `mouseleave` handler. */
    method MouseLeave()
      modifies this
      ensures !isClockHovered
      ensures coherence == old(coherence) && quantumState == old(quantumState) && particles == old(particles)
    {
      isClockHovered := false;
    }

    /**
     * `spawnParticles(count)`: appends `count` new particles at the window
     * centre, carrying the clock's quantum state and mode.
     */
    method SpawnParticles(count: nat, centerX: real, centerY: real, draws: seq<ParticleDraws>)
      requires |draws| >= count
      modifies this
      ensures |particles| == |old(particles)| + count && particles[..|old(particles)|] == old(particles)
      ensures forall i :: |old(particles)| <= i < |particles| ==>
        fresh(particles[i]) && particles[i].life == 1.0 && particles[i].mode == mode &&
        particles[i].quantumState == quantumState && particles[i].x == centerX && particles[i].y == centerY
      ensures quantumState == old(quantumState) && coherence == old(coherence) && mode == old(mode)
      ensures isClockHovered == old(isClockHovered) && zkpState == old(zkpState)
      ensures Distinct(old(particles)) ==> Distinct(particles)
    {
      var i := 0;
      while i < count
        invariant 0 <= i <= count
        invariant |particles| == |old(particles)| + i && particles[..|old(particles)|] == old(particles)
        invariant forall k :: |old(particles)| <= k < |particles| ==>
          fresh(particles[k]) && particles[k].life == 1.0 && particles[k].mode == mode &&
          particles[k].quantumState == quantumState && particles[k].x == centerX && particles[k].y == centerY
        invariant quantumState == old(quantumState) && coherence == old(coherence) && mode == old(mode)
        invariant isClockHovered == old(isClockHovered) && zkpState == old(zkpState)
        invariant Distinct(old(particles)) ==> Distinct(particles)
      {
        var d := draws[i];
        var particle := new Particle(centerX, centerY, quantumState, d.size, d.speedX, d.speedY, d.hue);
        particle.mode := mode;
        particles := particles + [particle];
        i := i + 1;
      }
    }

    /**
     * `updateClock()` for the time `hours`:`minutes` with the spawn draw:
     * the quantum state steps, coherence decays unless hovered, the level
     * follows the time of day, and when the draw is below
     * quantumState·0.3·(1 + level) 1 + ⌊2·level⌋ particles are spawned.
     */
    method UpdateClock(hours: int, minutes: int, spawnDraw: real, centerX: real, centerY: real, draws: seq<ParticleDraws>)
      requires Valid() && |draws| >= 3
      modifies this
      ensures Valid()
      ensures quantumState == NextQuantumState(old(quantumState))
      ensures coherence == if isClockHovered then old(coherence) else Decayed(old(coherence))
      ensures zkpState == ClockZkp(hours, minutes)
      ensures spawnDraw < quantumState * 0.3 * (1.0 + zkpState) ==>
        |particles| == |old(particles)| + SpawnCount(zkpState)
      ensures !(spawnDraw < quantumState * 0.3 * (1.0 + zkpState)) ==> particles == old(particles)
      ensures particles[..|old(particles)|] == old(particles)
      ensures mode == old(mode) && isClockHovered == old(isClockHovered)
    {
      quantumState := Frac(quantumState + StateChangeRate);
      if !isClockHovered {
        coherence := Max(MinCoherence, coherence - 0.01);
      }
      zkpState := ClockZkp(hours, minutes);
      if spawnDraw < quantumState * 0.3 * (1.0 + zkpState) {
        SpawnParticles(1 + (zkpState * 2.0).Floor, centerX, centerY, draws);
      }
    }

    /**
     * A mode button: the clock and every particle take the new mode; nothing
     * else about the clock or the particles changes.
     */
    method SetMode(newMode: string)
      modifies this, set p | p in particles
      ensures mode == newMode && particles == old(particles)
      ensures forall p :: p in particles ==> p.mode == newMode && ModeOnlyChanged(p)
      ensures quantumState == old(quantumState) && coherence == old(coherence)
      ensures isClockHovered == old(isClockHovered) && zkpState == old(zkpState)
    {
      mode := newMode;
      var i := 0;
      while i < |particles|
        invariant 0 <= i <= |particles| && particles == old(particles)
        invariant forall k :: 0 <= k < i ==> particles[k].mode == newMode
        invariant forall p :: p in particles ==> ModeOnlyChanged(p)
        invariant mode == newMode && quantumState == old(quantumState) && coherence == old(coherence)
        invariant isClockHovered == old(isClockHovered) && zkpState == old(zkpState)
      {
        particles[i].mode := newMode;
        i := i + 1;
      }
    }

    /**
     * One `animate()` frame: the particles without life are dropped, and
     * every survivor takes the clock's quantum state and is updated, with
     * `arounds[i]` the surroundings of survivor i.
     */
    method Animate(arounds: seq<Surroundings>)
      requires Valid() && |arounds| >= |particles|
      modifies this, set p | p in particles
      ensures Valid()
      ensures particles == old(Alive(particles))
      ensures |particles| == |old(LiveIndices(particles, |particles|))|
      ensures forall i :: 0 <= i < |particles| ==>
        particles[i] == old(particles)[old(LiveIndices(particles, |particles|))[i]] &&
        Stepped(old(particles)[old(LiveIndices(particles, |particles|))[i]], quantumState, arounds[i])
      ensures quantumState == old(quantumState) && coherence == old(coherence) && mode == old(mode)
      ensures isClockHovered == old(isClockHovered) && zkpState == old(zkpState)
    {
      var live := Alive(particles);
      AliveMembers(particles);
      AliveInOrder(particles, |particles|);
      assert particles[..|particles|] == particles;
      AliveDistinct(particles);
      UpdateAll(live, quantumState, arounds);
      particles := live;
    }
  }

  /** Every field of p but its mode is what it was. */
  twostate predicate ModeOnlyChanged(p: Particle)
    reads p
  {
    p.Kin() == old(p.Kin()) && p.life == old(p.life) && p.quantumState == old(p.quantumState) &&
    p.zkpState == old(p.zkpState) && p.size == old(p.size) && p.hue == old(p.hue)
  }

  /**
   * The loop of `animate()`: each particle takes the quantum state q and is
   * updated with its own surroundings; since no particle is listed twice,
   * each takes exactly one step.
   */
  method UpdateAll(ps: seq<Particle>, q: real, arounds: seq<Surroundings>)
    requires Distinct(ps) && |arounds| >= |ps|
    modifies set p | p in ps
    ensures forall i :: 0 <= i < |ps| ==> Stepped(ps[i], q, arounds[i])
  {
    var i := 0;
    while i < |ps|
      invariant 0 <= i <= |ps|
      invariant forall k :: 0 <= k < i ==> Stepped(ps[k], q, arounds[k])
      invariant forall k :: i <= k < |ps| ==> unchanged(ps[k])
    {
      var p := ps[i];
      p.quantumState := q;
      p.Update(arounds[i]);
      i := i + 1;
    }
  }
}
