/** The game session: lane, score, live obstacles and whether the timers are running. */
module Session {
  import opened Lanes
  import opened Shuffle
  import opened Obstacles
  import opened Collision

  /**
   * Where the page lays the sprites out: the board's corner on screen, the player's
   * vertical offset and size, and the obstacle size. Rectangles are computed from these
   * and the offsets the game sets, in place of querying the rendered geometry.
   */
  datatype Layout = Layout(
    boardLeft: real, boardTop: real,
    playerTop: real, playerWidth: real, playerHeight: real,
    obstacleWidth: real, obstacleHeight: real)

  function PlayerRect(g: Layout, playerLeft: real): Rect {
    Rect(g.boardLeft + playerLeft, g.boardTop + g.playerTop, g.playerWidth, g.playerHeight)
  }

  function ObstacleRect(g: Layout, o: Obstacle): Rect
    requires IsLane(o.lane)
  {
    Rect(g.boardLeft + LaneCenter(o.lane), g.boardTop + o.top as real, g.obstacleWidth, g.obstacleHeight)
  }

  /** The player at this offset collides with obstacle `o`. */
  predicate Hits(g: Layout, playerLeft: real, o: Obstacle)
    requires IsLane(o.lane)
  {
    Overlaps(Hitbox(PlayerRect(g, playerLeft)), ObstacleRect(g, o))
  }

  /** The player at this offset collides with some obstacle of `obs`. */
  predicate AnyHit(g: Layout, playerLeft: real, obs: seq<Obstacle>)
    requires OnBoard(obs)
  {
    exists k :: 0 <= k < |obs| && Hits(g, playerLeft, obs[k])
  }

  class Game {
    var lane: int
    var playerLeft: real
    var score: nat
    var obstacles: seq<Obstacle>
    var running: bool

    /** The player is in a lane and drawn at its centre; every obstacle is on the board. */
    ghost predicate Valid()
      reads this
    {
      IsLane(lane) && playerLeft == LaneCenter(lane) && OnBoard(obstacles)
    }

    /** A game that has not been started: no timers run yet. */
    constructor ()
      ensures Valid() && !running
      ensures score == 0 && lane == StartLane && obstacles == []
    {
      lane := StartLane;
      playerLeft := LaneCenter(StartLane);
      score := 0;
      obstacles := [];
      running := false;
    }

    /** Draws the player at the centre of its lane. */
    method UpdatePlayerPosition()
      requires IsLane(lane)
      modifies this`playerLeft
      ensures playerLeft == LaneCenter(lane)
    {
      playerLeft := LaneCenter(lane);
    }

    /** Moves one lane left unless already in the leftmost lane. */
    method MovePlayerLeft()
      requires Valid()
      modifies this`lane, this`playerLeft
      ensures Valid()
      ensures lane == StepLeft(old(lane)) && playerLeft == LaneCenter(lane)
    {
      if lane > 0 {
        lane := lane - 1;
        UpdatePlayerPosition();
      }
    }

    /** Moves one lane right unless already in the rightmost lane. */
    method MovePlayerRight()
      requires Valid()
      modifies this`lane, this`playerLeft
      ensures Valid()
      ensures lane == StepRight(old(lane)) && playerLeft == LaneCenter(lane)
    {
      if lane < |LaneCenters| - 1 {
        lane := lane + 1;
        UpdatePlayerPosition();
      }
    }

    /** Adds one obstacle at the top of lane `laneIndex`. */
    method CreateObstacleInLane(laneIndex: int)
      requires Valid() && IsLane(laneIndex)
      modifies this`obstacles
      ensures Valid()
      ensures obstacles == old(obstacles) + [Obstacle(laneIndex, SpawnTop)]
    {
      obstacles := obstacles + [Obstacle(laneIndex, SpawnTop)];
    }

    /**
     * Spawns a row: `count` obstacles (drawn from 1..4) in the first `count` lanes of a
     * shuffle of all lanes. The row's lanes are distinct and the old obstacles are kept.
     */
    method SpawnObstacleRow(count: int, choices: seq<int>)
      requires Valid()
      requires 1 <= count <= 4 && ValidChoices(choices)
      modifies this`obstacles
      ensures Valid()
      ensures obstacles == old(obstacles) + Spawned(FisherYates(choices)[..count])
      ensures |obstacles| == |old(obstacles)| + count
      ensures forall p, q :: |old(obstacles)| <= p < q < |obstacles| ==> obstacles[p].lane != obstacles[q].lane
      ensures forall p :: |old(obstacles)| <= p < |obstacles| ==> obstacles[p].top == SpawnTop
    {
      var lanes := ShuffleLanes(choices);
      ghost var before := obstacles;
      var i := 0;
      while i < count
        invariant 0 <= i <= count
        invariant Valid()
        invariant obstacles == before + Spawned(lanes[..i])
      {
        CreateObstacleInLane(lanes[i]);
        SpawnedStep(lanes, i);
        i := i + 1;
      }
      SpawnedRow(lanes[..count]);
    }

    /** Moves every obstacle down by `Speed` and removes those that left the board. */
    method MoveObstacles()
      requires Valid()
      modifies this`obstacles
      ensures Valid()
      ensures obstacles == Advanced(old(obstacles))
    {
      var current := obstacles;
      var kept: seq<Obstacle> := [];
      var i := 0;
      while i < |current|
        invariant 0 <= i <= |current|
        invariant kept == Advanced(current[..i])
      {
        var o := current[i];
        var top := o.top + Speed;
        if top <= BoardHeight {
          kept := kept + [o.(top := top)];
        }
        assert current[..i + 1][..i] == current[..i];
        i := i + 1;
      }
      assert current[..i] == current;
      AdvancedOnBoard(current);
      obstacles := kept;
    }

    /** Stops the timers. Harmless when they are already stopped. */
    method GameOver()
      modifies this`running
      ensures !running
    {
      running := false;
    }

    /** Ends the game if the player's hitbox overlaps any obstacle. */
    method CheckCollision(g: Layout)
      requires Valid()
      modifies this`running
      ensures Valid()
      ensures running == (old(running) && !AnyHit(g, playerLeft, obstacles))
    {
      var h := Hitbox(PlayerRect(g, playerLeft));
      var i := 0;
      while i < |obstacles|
        invariant 0 <= i <= |obstacles|
        invariant running == (old(running) && !exists k :: 0 <= k < i && Hits(g, playerLeft, obstacles[k]))
      {
        var r := ObstacleRect(g, obstacles[i]);
        if h.left < r.Right() && h.right > r.left && h.top < r.Bottom() && h.bottom > r.top {
          GameOver();
        }
        i := i + 1;
      }
    }

    /**
     * Starts or restarts the game from any state: score 0, the second lane, no
     * obstacles, timers running.
     */
    method StartGame()
      modifies this
      ensures Valid() && running
      ensures score == 0 && lane == StartLane && playerLeft == LaneCenter(StartLane) && obstacles == []
    {
      score := 0;
      lane := StartLane;
      UpdatePlayerPosition();
      var existing := obstacles;
      var i := 0;
      while i < |existing|
        invariant 0 <= i <= |existing|
        invariant obstacles == existing[i..]
        modifies this`obstacles
      {
        obstacles := obstacles[1..];
        i := i + 1;
      }
      running := true;
    }

    /** The once-a-second timer: adds one point while the game runs. */
    method ScoreTick()
      requires Valid()
      modifies this`score
      ensures Valid()
      ensures score == old(score) + (if running then 1 else 0)
    {
      if running {
        score := score + 1;
      }
    }

    /** The spawn timer: spawns a row while the game runs. */
    method SpawnTick(count: int, choices: seq<int>)
      requires Valid()
      requires 1 <= count <= 4 && ValidChoices(choices)
      modifies this`obstacles
      ensures Valid()
      ensures obstacles == if running then old(obstacles) + Spawned(FisherYates(choices)[..count]) else old(obstacles)
    {
      if running {
        SpawnObstacleRow(count, choices);
      }
    }

    /**
     * The fast timer: while the game runs, advances the obstacles and then ends the
     * game if the player collides with one of those left on the board.
     */
    method PhysicsTick(g: Layout)
      requires Valid()
      modifies this`obstacles, this`running
      ensures Valid()
      ensures obstacles == if old(running) then Advanced(old(obstacles)) else old(obstacles)
      ensures running == (old(running) && !AnyHit(g, playerLeft, obstacles))
      ensures forall k :: 0 <= k < |obstacles| ==> obstacles[k].top <= BoardHeight
    {
      if running {
        MoveObstacles();
        CheckCollision(g);
      }
    }
  }
}
