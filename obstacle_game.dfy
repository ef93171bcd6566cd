/**
 * The dodging game of assets/js/game.js. The player sits at x = 50 on one
 * of three levels (player state 0, 0.5 or 1, drawn at height − state ·
 * height); obstacles enter at the right edge on level 0 or 1, move 5 units
 * left per frame and leave once x ≤ 0; the game ends when an obstacle comes
 * within 15 units of the player on both axes. The page's globals are the
 * fields of `ObstacleGame`; the canvas size is fixed at construction, each
 * `Math.random()` draw is a parameter, and drawing and the interval timer
 * are left out.
 */
module ObstacleGame {

  datatype Obstacle = Obstacle(x: real, y: real, state: real)

  /** The player's fixed column. */
  const PlayerX: real := 50.0
  /** Obstacles move this far left each frame. */
  const Step: real := 5.0
  /** The collision distance on each axis. */
  const Reach: real := 15.0

  /** One of the three levels the arrow keys can reach. */
  predicate IsLevel(s: real)
  {
    s == 0.0 || s == 0.5 || s == 1.0
  }

  /** The drawing height of level s on a canvas of the given height. */
  function LevelY(height: real, s: real): (y: real)
    requires IsLevel(s)
    ensures s == 0.0 ==> y == height
    ensures s == 0.5 ==> y + y == height
    ensures s == 1.0 ==> y == 0.0
  {
    height - s * height
  }

  function Abs(v: real): (r: real)
    ensures r >= 0.0 && (r == v || r == -v)
  {
    if v < 0.0 then -v else v
  }

  /** `Math.abs(obs.x − 50) < 15 && Math.abs(obs.y − playerY) < 15`. */
  predicate Hits(o: Obstacle, playerY: real)
  {
    Abs(o.x - PlayerX) < Reach && Abs(o.y - playerY) < Reach
  }

  /** Every obstacle after `obstacles[i].x -= 5`. */
  function Shifted(obstacles: seq<Obstacle>): (r: seq<Obstacle>)
    ensures |r| == |obstacles|
    ensures forall i :: 0 <= i < |obstacles| ==> r[i] == obstacles[i].(x := obstacles[i].x - Step)
  {
    seq(|obstacles|, i requires 0 <= i < |obstacles| => obstacles[i].(x := obstacles[i].x - Step))
  }

  /** `obstacles.filter(obs => obs.x > 0)`. */
  function OnScreen(obstacles: seq<Obstacle>): (r: seq<Obstacle>)
    ensures |r| <= |obstacles|
    ensures forall o :: o in r <==> o in obstacles && o.x > 0.0
  {
    if |obstacles| == 0 then []
    else
      var rest := OnScreen(obstacles[..|obstacles| - 1]);
      var last := obstacles[|obstacles| - 1];
      assert obstacles == obstacles[..|obstacles| - 1] + [last];
      if last.x > 0.0 then rest + [last] else rest
  }

  /** The obstacles one frame of `moveObstacles` leaves: moved left, the ones off screen dropped. */
  function Moved(obstacles: seq<Obstacle>): (r: seq<Obstacle>)
    ensures |r| <= |obstacles|
    ensures forall o :: o in r ==> o.x > 0.0
    ensures forall i :: 0 <= i < |obstacles| && obstacles[i].x > Step ==> obstacles[i].(x := obstacles[i].x - Step) in r
  {
    OnScreen(Shifted(obstacles))
  }

  class ObstacleGame {
    var playerState: real
    var obstacles: seq<Obstacle>
    var isRunning: bool
    const width: real
    const height: real

    /** The player is on one of the three levels. */
    predicate Valid()
      reads this
    {
      IsLevel(playerState)
    }

    /** The page as loaded: player at 0.5, no obstacles, not running. */
    constructor (width: real, height: real)
      ensures Valid()
      ensures playerState == 0.5 && obstacles == [] && !isRunning
      ensures this.width == width && this.height == height
    {
      this.width := width;
      this.height := height;
      playerState := 0.5;
      obstacles := [];
      isRunning := false;
    }

    /** `startGame()`: player back at 0.5, no obstacles, running. */
    method StartGame()
      modifies this
      ensures Valid()
      ensures playerState == 0.5 && obstacles == [] && isRunning
    {
      playerState := 0.5;
      obstacles := [];
      isRunning := true;
    }

    /** `endGame()`: stops the game; the board stays as it is. */
    method EndGame()
      modifies this
      ensures !isRunning
      ensures playerState == old(playerState) && obstacles == old(obstacles)
    {
      isRunning := false;
    }

    /**
     * The keydown handler: ignored when not running; ArrowUp raises the
     * player half a level while below 1, ArrowDown lowers it while above 0.
     */
    method OnKeyDown(key: string)
      requires Valid()
      modifies this
      ensures Valid()
      ensures !old(isRunning) ==> playerState == old(playerState)
      ensures old(isRunning) && key == "ArrowUp" ==>
        playerState == (if old(playerState) < 1.0 then old(playerState) + 0.5 else old(playerState))
      ensures old(isRunning) && key == "ArrowDown" ==>
        playerState == (if old(playerState) > 0.0 then old(playerState) - 0.5 else old(playerState))
      ensures key != "ArrowUp" && key != "ArrowDown" ==> playerState == old(playerState)
      ensures obstacles == old(obstacles) && isRunning == old(isRunning)
    {
      if !isRunning {
        return;
      }
      if key == "ArrowUp" && playerState < 1.0 {
        playerState := playerState + 0.5;
      } else if key == "ArrowDown" && playerState > 0.0 {
        playerState := playerState - 0.5;
      }
    }

    /**
     * `generateObstacle()` with its `Math.random()` draw: level 0 when the
     * draw is below 0.5, else level 1, entering at the right edge.
     */
    method GenerateObstacle(draw: real)
      modifies this
      ensures var s := if draw < 0.5 then 0.0 else 1.0;
        obstacles == old(obstacles) + [Obstacle(width, LevelY(height, s), s)]
      ensures playerState == old(playerState) && isRunning == old(isRunning)
    {
      var entangledState := if draw < 0.5 then 0.0 else 1.0;
      obstacles := obstacles + [Obstacle(width, height - entangledState * height, entangledState)];
    }

    /** `moveObstacles()`: every obstacle moves 5 left, then those at x ≤ 0 are dropped. */
    method MoveObstacles()
      modifies this
      ensures obstacles == Moved(old(obstacles))
      ensures playerState == old(playerState) && isRunning == old(isRunning)
    {
      var i := 0;
      while i < |obstacles|
        invariant 0 <= i <= |obstacles| == |old(obstacles)|
        invariant obstacles[..i] == Shifted(old(obstacles))[..i]
        invariant obstacles[i..] == old(obstacles)[i..]
        invariant playerState == old(playerState) && isRunning == old(isRunning)
      {
        assert obstacles[i] == old(obstacles)[i] by {
          assert obstacles[i..][0] == old(obstacles)[i..][0];
        }
        obstacles := obstacles[i := obstacles[i].(x := obstacles[i].x - Step)];
        i := i + 1;
        assert obstacles[i..] == old(obstacles)[i..] by {
          forall k | 0 <= k < |obstacles| - i
            ensures obstacles[i..][k] == old(obstacles)[i..][k]
          {
            assert old(obstacles)[i - 1..][k + 1] == old(obstacles)[i..][k];
          }
        }
      }
      assert obstacles == Shifted(old(obstacles)) by {
        assert obstacles == obstacles[..i];
      }
      obstacles := OnScreen(obstacles);
    }

    /** `checkCollision()`: true exactly when some obstacle is within reach of the player. */
    method CheckCollision() returns (hit: bool)
      requires Valid()
      ensures hit <==> exists i :: 0 <= i < |obstacles| && Hits(obstacles[i], LevelY(height, playerState))
    {
      var playerY := height - playerState * height;
      var i := 0;
      while i < |obstacles|
        invariant 0 <= i <= |obstacles|
        invariant forall j :: 0 <= j < i ==> !Hits(obstacles[j], playerY)
      {
        if Abs(obstacles[i].x - PlayerX) < Reach && Abs(obstacles[i].y - playerY) < Reach {
          return true;
        }
        i := i + 1;
      }
      return false;
    }

    /**
     * `updateGame()` with its two draws: nothing when not running;
     * otherwise an obstacle is generated when `spawnDraw` < 0.02, the
     * obstacles move, and the game ends on a collision.
     */
    method UpdateGame(spawnDraw: real, levelDraw: real)
      requires Valid()
      modifies this
      ensures Valid()
      ensures !old(isRunning) ==> obstacles == old(obstacles) && !isRunning
      ensures old(isRunning) ==>
        var s := if levelDraw < 0.5 then 0.0 else 1.0;
        var spawned := if spawnDraw < 0.02 then old(obstacles) + [Obstacle(width, LevelY(height, s), s)]
                       else old(obstacles);
        obstacles == Moved(spawned) &&
        (isRunning <==> !exists i :: 0 <= i < |obstacles| && Hits(obstacles[i], LevelY(height, playerState)))
      ensures playerState == old(playerState)
    {
      if !isRunning {
        return;
      }
      if spawnDraw < 0.02 {
        GenerateObstacle(levelDraw);
      }
      MoveObstacles();
      var hit := CheckCollision();
      if hit {
        EndGame();
      }
    }
  }

  /** Starting from a level, any sequence of key presses keeps the player on a level. */
  lemma {:induction false} KeysKeepLevel(s: real, ups: seq<bool>)
    requires IsLevel(s)
    ensures IsLevel(AfterKeys(s, ups))
  {
    if |ups| > 0 {
      KeysKeepLevel(s, ups[..|ups| - 1]);
    }
  }

  /** The player state after a run of ArrowUp (true) and ArrowDown (false) presses while running. */
  function AfterKeys(s: real, ups: seq<bool>): real
  {
    if |ups| == 0 then s
    else
      var before := AfterKeys(s, ups[..|ups| - 1]);
      if ups[|ups| - 1] then (if before < 1.0 then before + 0.5 else before)
      else (if before > 0.0 then before - 0.5 else before)
  }

  /** After a frame every remaining obstacle is on screen, and an obstacle stays exactly when it was beyond x = 5. */
  lemma MovedKeepsExactly(obstacles: seq<Obstacle>, o: Obstacle)
    ensures o in Moved(obstacles) ==> o.x > 0.0
    ensures o in obstacles ==> (o.(x := o.x - Step) in Moved(obstacles) <==> o.x > Step)
  {
    if o in obstacles {
      var i :| 0 <= i < |obstacles| && obstacles[i] == o;
      assert Shifted(obstacles)[i] == o.(x := o.x - Step);
    }
  }

  /**
   * On a canvas at least 30 high, an obstacle on level b can only hit the
   * player when the player is on the same level b.
   */
  lemma HitNeedsSameLevel(height: real, o: Obstacle, playerState: real)
    requires height >= 30.0 && IsLevel(playerState)
    requires o.state == 0.0 || o.state == 1.0
    requires o.y == LevelY(height, o.state)
    requires Hits(o, LevelY(height, playerState))
    ensures playerState == o.state
  {
  }
}
