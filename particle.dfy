/**
 * The particle of pages/features/js/particle.js: a position, a speed, a
 * life that drains on every update and a zero-knowledge-proof level (0,
 * 0.5 or 1) derived from the quantum state by two thresholds. Each
 * `Math.random()` draw is a parameter; the values the "chaos" and
 * "harmony" behaviours take from `Math.atan2`, `Math.cos`, `Math.sin` and
 * the window size come in as a `Surroundings` record; drawing is left out.
 */
module Particles {
  import opened Config

  /** `calculateZKPState()`: 0 below the first threshold, 0.5 below the second, else 1. */
  function ZkpLevel(q: real): (r: real)
    ensures r == 0.0 <==> q < State0Threshold
    ensures r == 0.5 <==> State0Threshold <= q < State05Threshold
    ensures r == 1.0 <==> State05Threshold <= q
  {
    if q < State0Threshold then 0.0 else if q < State05Threshold then 0.5 else 1.0
  }

  predicate IsZkpLevel(z: real)
  {
    z == 0.0 || z == 0.5 || z == 1.0
  }

  /** A larger quantum state never gives a smaller level. */
  lemma ZkpMonotone(a: real, b: real)
    requires a <= b
    ensures ZkpLevel(a) <= ZkpLevel(b)
    ensures IsZkpLevel(ZkpLevel(a))
  {
  }

  /**
   * The values of the trigonometric expressions a behaviour evaluates for
   * the particle's current position: the window centre, the cosine and sine
   * of the particle's angle about the centre, of that angle plus zkp·π,
   * and the sine of zkp·2π.
   */
  datatype Surroundings = Surroundings(
    centerX: real, centerY: real,
    cosAngle: real, sinAngle: real,
    cosStateAngle: real, sinStateAngle: real,
    sinZkpTurn: real)

  /** The life an update takes away at a level: 0.01·(1 + z/2). */
  function Drain(z: real): (d: real)
    requires IsZkpLevel(z)
    ensures 0.01 <= d <= 0.015
  {
    0.01 * (1.0 + z * 0.5)
  }

  /** The distance "harmony" mode aims for and the fraction of the gap it closes per update. */
  function HarmonyTarget(sinZkpTurn: real): real
  {
    150.0 + sinZkpTurn * 50.0
  }

  function HarmonyEasing(z: real): (e: real)
    requires IsZkpLevel(z)
    ensures 0.05 <= e <= 0.07
  {
    0.05 + z * 0.02
  }

  /** Where a particle is and how fast it moves. */
  datatype Kinematics = Kinematics(x: real, y: real, speedX: real, speedY: real)

  /**
   * What the behaviour of `mode` does to the kinematics at level z: "normal"
   * steps by the speed scaled by 1 + z, "chaos" turns the speed to the state
   * angle with magnitude 2 + z and steps by it, "harmony" eases the
   * position towards the orbit point, and any other mode does nothing.
   */
  function Motion(mode: string, z: real, around: Surroundings, k: Kinematics): (r: Kinematics)
    requires IsZkpLevel(z)
    ensures mode != "chaos" ==> r.speedX == k.speedX && r.speedY == k.speedY
    ensures mode != "normal" && mode != "chaos" && mode != "harmony" ==> r == k
    ensures mode == "chaos" ==> r.x - k.x == r.speedX && r.y - k.y == r.speedY
  {
    if mode == "normal" then
      Kinematics(k.x + k.speedX * (1.0 + z), k.y + k.speedY * (1.0 + z), k.speedX, k.speedY)
    else if mode == "chaos" then
      var sx := around.cosStateAngle * (2.0 + z);
      var sy := around.sinStateAngle * (2.0 + z);
      Kinematics(k.x + sx, k.y + sy, sx, sy)
    else if mode == "harmony" then
      var target := HarmonyTarget(around.sinZkpTurn);
      var easing := HarmonyEasing(z);
      Kinematics(k.x + (around.centerX + around.cosAngle * target - k.x) * easing,
                 k.y + (around.centerY + around.sinAngle * target - k.y) * easing,
                 k.speedX, k.speedY)
    else k
  }

  class Particle {
    var x: real
    var y: real
    var size: real
    var speedX: real
    var speedY: real
    var quantumState: real
    var hue: real
    var life: real
    var mode: string
    var zkpState: real

    function Kin(): Kinematics
      reads this
    {
      Kinematics(x, y, speedX, speedY)
    }

    /**
     * `new Particle(x, y, quantumState)` with its four `Math.random()`
     * draws: full life, "normal" mode, the level of the given state.
     */
    constructor (x: real, y: real, quantumState: real, sizeDraw: real, speedXDraw: real, speedYDraw: real, hueDraw: real)
      ensures this.x == x && this.y == y && this.quantumState == quantumState
      ensures life == 1.0 && mode == "normal" && zkpState == ZkpLevel(quantumState)
      ensures size == sizeDraw * (MaxSize - MinSize) + MinSize
      ensures speedX == speedXDraw * (MaxSpeed - MinSpeed) + MinSpeed
      ensures speedY == speedYDraw * (MaxSpeed - MinSpeed) + MinSpeed
      ensures hue == BaseHue + hueDraw * HueRange
      ensures 0.0 <= sizeDraw < 1.0 ==> MinSize <= size < MaxSize
      ensures 0.0 <= speedXDraw < 1.0 ==> MinSpeed <= speedX < MaxSpeed
    {
      this.x := x;
      this.y := y;
      size := sizeDraw * (MaxSize - MinSize) + MinSize;
      speedX := speedXDraw * (MaxSpeed - MinSpeed) + MinSpeed;
      speedY := speedYDraw * (MaxSpeed - MinSpeed) + MinSpeed;
      this.quantumState := quantumState;
      hue := BaseHue + hueDraw * HueRange;
      life := 1.0;
      mode := "normal";
      zkpState := ZkpLevel(quantumState);
    }

    /** `normalBehavior()`: one step of the speed, scaled by 1 + zkp. */
    method NormalBehavior()
      modifies this
      ensures x == old(x) + speedX * (1.0 + zkpState) && y == old(y) + speedY * (1.0 + zkpState)
      ensures speedX == old(speedX) && speedY == old(speedY) && life == old(life)
      ensures mode == old(mode) && zkpState == old(zkpState) && quantumState == old(quantumState)
      ensures size == old(size) && hue == old(hue)
    {
      x := x + speedX * (1.0 + zkpState);
      y := y + speedY * (1.0 + zkpState);
    }

    /** `chaosBehavior()`: the speed turns to the state angle with magnitude 2 + zkp, then one step. */
    method ChaosBehavior(around: Surroundings)
      modifies this
      ensures speedX == around.cosStateAngle * (2.0 + zkpState) && speedY == around.sinStateAngle * (2.0 + zkpState)
      ensures x == old(x) + speedX && y == old(y) + speedY
      ensures life == old(life) && mode == old(mode) && zkpState == old(zkpState) && quantumState == old(quantumState)
      ensures size == old(size) && hue == old(hue)
    {
      speedX := around.cosStateAngle * (2.0 + zkpState);
      speedY := around.sinStateAngle * (2.0 + zkpState);
      x := x + speedX;
      y := y + speedY;
    }

    /** `harmonyBehavior()`: the position eases towards the point on the target orbit. */
    method HarmonyBehavior(around: Surroundings)
      requires IsZkpLevel(zkpState)
      modifies this
      ensures life == old(life) && mode == old(mode) && zkpState == old(zkpState) && quantumState == old(quantumState)
      ensures var target := HarmonyTarget(around.sinZkpTurn);
        var easing := HarmonyEasing(zkpState);
        x == old(x) + (around.centerX + around.cosAngle * target - old(x)) * easing &&
        y == old(y) + (around.centerY + around.sinAngle * target - old(y)) * easing
      ensures speedX == old(speedX) && speedY == old(speedY)
      ensures size == old(size) && hue == old(hue)
    {
      var targetDistance := 150.0 + around.sinZkpTurn * 50.0;
      var easing := 0.05 + zkpState * 0.02;
      x := x + (around.centerX + around.cosAngle * targetDistance - x) * easing;
      y := y + (around.centerY + around.sinAngle * targetDistance - y) * easing;
    }

    /**
     * `update()`: the level is recomputed, the mode's behaviour moves the
     * particle (an unknown mode does not), and the life drains.
     */
    method Update(around: Surroundings)
      modifies this
      ensures zkpState == ZkpLevel(quantumState) && quantumState == old(quantumState) && mode == old(mode)
      ensures Kin() == Motion(mode, zkpState, around, old(Kin()))
      ensures life == old(life) - Drain(zkpState)
      ensures life < old(life)
      ensures size == old(size) && hue == old(hue)
    {
      zkpState := ZkpLevel(quantumState);
      ghost var before := Kin();
      if mode == "normal" {
        NormalBehavior();
        assert Kin() == Motion("normal", zkpState, around, before);
      } else if mode == "chaos" {
        ChaosBehavior(around);
        assert Kin() == Motion("chaos", zkpState, around, before);
      } else if mode == "harmony" {
        HarmonyBehavior(around);
        assert Kin() == Motion("harmony", zkpState, around, before);
      }
      life := life - 0.01 * (1.0 + zkpState * 0.5);
    }
  }

  /**
   * Normal and harmony modes keep the speed; normal mode moves by exactly
   * speed·(1 + z); a mode none of the behaviours knows leaves the particle
   * where it is.
   */
  lemma MotionKeepsSpeed(mode: string, z: real, around: Surroundings, k: Kinematics)
    requires IsZkpLevel(z)
    ensures mode != "chaos" ==> Motion(mode, z, around, k).speedX == k.speedX && Motion(mode, z, around, k).speedY == k.speedY
    ensures mode == "normal" ==> Motion(mode, z, around, k).x - k.x == k.speedX * (1.0 + z)
    ensures mode !in {"normal", "chaos", "harmony"} ==> Motion(mode, z, around, k) == k
  {
  }

  /**
   * In harmony mode the distance to the orbit point shrinks: the new gap is
   * (1 − easing) times the old one, in both coordinates.
   */
  lemma HarmonyMotionCloses(z: real, around: Surroundings, k: Kinematics)
    requires IsZkpLevel(z)
    ensures var target := HarmonyTarget(around.sinZkpTurn);
      var tx := around.centerX + around.cosAngle * target;
      var ty := around.centerY + around.sinAngle * target;
      var r := Motion("harmony", z, around, k);
      r.x - tx == (1.0 - HarmonyEasing(z)) * (k.x - tx) && r.y - ty == (1.0 - HarmonyEasing(z)) * (k.y - ty)
  {
    var target := HarmonyTarget(around.sinZkpTurn);
    HarmonyClosesGap(k.x, around.centerX + around.cosAngle * target, HarmonyEasing(z));
    HarmonyClosesGap(k.y, around.centerY + around.sinAngle * target, HarmonyEasing(z));
  }

  /**
   * One harmony step closes the gap to the target point by the easing
   * fraction: the new gap is (1 − easing) times the old one.
   */
  lemma HarmonyClosesGap(x: real, target: real, easing: real)
    ensures (x + (target - x) * easing) - target == (1.0 - easing) * (x - target)
  {
  }

  /** The life left after one update at each of the given levels. */
  function LifeAfter(life: real, levels: seq<real>): (r: real)
    requires forall i :: 0 <= i < |levels| ==> IsZkpLevel(levels[i])
  {
    if |levels| == 0 then life else LifeAfter(life, levels[..|levels| - 1]) - Drain(levels[|levels| - 1])
  }

  /** n updates drain between n/100 and 1.5·n/100 of life. */
  lemma {:induction false} LifeBound(life: real, levels: seq<real>)
    requires forall i :: 0 <= i < |levels| ==> IsZkpLevel(levels[i])
    ensures LifeAfter(life, levels) <= life - 0.01 * |levels| as real
    ensures LifeAfter(life, levels) >= life - 0.015 * |levels| as real
  {
    if |levels| > 0 {
      LifeBound(life, levels[..|levels| - 1]);
    }
  }

  /** A fresh particle is dead (life ≤ 0) after 100 updates, whatever its levels. */
  lemma HundredUpdatesDrainLife(levels: seq<real>)
    requires |levels| >= 100 && forall i :: 0 <= i < |levels| ==> IsZkpLevel(levels[i])
    ensures LifeAfter(1.0, levels) <= 0.0
  {
    LifeBound(1.0, levels);
  }
}
