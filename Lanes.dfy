/** Lane geometry of the board and the player's lane movement. */
module Lanes {

  /** The board is 500 wide and divided into five lanes of this width. */
  const LaneWidth: real := 100.0
  /** Nominal width of the player sprite. */
  const PlayerWidth: real := 90.0

  /** Left offset that centres the player sprite in each lane. */
  const LaneCenters: seq<real> := [
    LaneWidth * 0.5 - PlayerWidth / 2.0,
    LaneWidth * 1.5 - PlayerWidth / 2.0,
    LaneWidth * 2.5 - PlayerWidth / 2.0,
    LaneWidth * 3.5 - PlayerWidth / 2.0,
    LaneWidth * 4.5 - PlayerWidth / 2.0
  ]

  /** The lane a new session starts in: the second lane. */
  const StartLane: int := 1

  predicate IsLane(i: int) {
    0 <= i < |LaneCenters|
  }

  /** The left offset of a sprite standing in lane `i`. */
  function LaneCenter(i: int): (x: real)
    requires IsLane(i)
    ensures x == 100.0 * i as real + 5.0
    ensures x + PlayerWidth / 2.0 == LaneWidth * (i as real + 0.5)
  {
    LaneCenters[i]
  }

  /** The lane after a left move: one lane to the left, unchanged at the leftmost lane. */
  function StepLeft(lane: int): int {
    if lane > 0 then lane - 1 else lane
  }

  /** The lane after a right move: one lane to the right, unchanged at the rightmost lane. */
  function StepRight(lane: int): int {
    if lane < |LaneCenters| - 1 then lane + 1 else lane
  }

  /** Moves never leave the board. */
  lemma StepsStayInLanes(lane: int)
    requires IsLane(lane)
    ensures IsLane(StepLeft(lane)) && IsLane(StepRight(lane))
  {
  }

  /** A move at the edge it points to changes nothing; elsewhere it changes the lane by one. */
  lemma StepsAtEdges(lane: int)
    requires IsLane(lane)
    ensures StepLeft(lane) == lane <==> lane == 0
    ensures StepRight(lane) == lane <==> lane == |LaneCenters| - 1
  {
  }

  /** Left then right returns to the start from every lane but the leftmost. */
  lemma RightUndoesLeft(lane: int)
    requires IsLane(lane) && lane > 0
    ensures StepRight(StepLeft(lane)) == lane
  {
  }

  /** Right then left returns to the start from every lane but the rightmost. */
  lemma LeftUndoesRight(lane: int)
    requires IsLane(lane) && lane < |LaneCenters| - 1
    ensures StepLeft(StepRight(lane)) == lane
  {
  }
}
