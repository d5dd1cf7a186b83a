/** Falling obstacles: how a row is created and how one physics step moves them. */
module Obstacles {
  import opened Lanes

  /** An obstacle is the lane it falls in and its vertical offset on the board. */
  datatype Obstacle = Obstacle(lane: int, top: int)

  /** Vertical offset of a new obstacle: just above the visible board. */
  const SpawnTop: int := -80
  /** Distance an obstacle falls per physics step. */
  const Speed: int := 5
  /** An obstacle whose top passes this offset has left the board. */
  const BoardHeight: int := 600

  /** Every obstacle is in a lane and between its spawn offset and the bottom of the board. */
  predicate OnBoard(obs: seq<Obstacle>) {
    forall k :: 0 <= k < |obs| ==> IsLane(obs[k].lane) && SpawnTop <= obs[k].top <= BoardHeight
  }

  /** The obstacles created for a row, one per lane of `lanes`, in that order. */
  function Spawned(lanes: seq<int>): seq<Obstacle> {
    seq(|lanes|, k requires 0 <= k < |lanes| => Obstacle(lanes[k], SpawnTop))
  }

  /** One obstacle after a step: moved down, or gone once it has passed the bottom. */
  function Advance(o: Obstacle): seq<Obstacle> {
    var moved := o.(top := o.top + Speed);
    if moved.top > BoardHeight then [] else [moved]
  }

  /** All obstacles after a step, processed in order as the physics tick visits them. */
  function Advanced(obs: seq<Obstacle>): seq<Obstacle>
    decreases |obs|
  {
    if obs == [] then [] else Advanced(obs[..|obs| - 1]) + Advance(obs[|obs| - 1])
  }

  /** Stepping a list is stepping each part of it: survivors keep their relative order. */
  lemma {:induction false} AdvancedConcat(a: seq<Obstacle>, b: seq<Obstacle>)
    ensures Advanced(a + b) == Advanced(a) + Advanced(b)
    decreases |b|
  {
    if b == [] {
      assert a + b == a;
    } else {
      var b' := b[..|b| - 1];
      assert (a + b)[..|a + b| - 1] == a + b';
      AdvancedConcat(a, b');
    }
  }

  /** A step never makes the list longer. */
  lemma {:induction false} AdvancedShrinks(obs: seq<Obstacle>)
    ensures |Advanced(obs)| <= |obs|
    decreases |obs|
  {
    if obs != [] {
      AdvancedShrinks(obs[..|obs| - 1]);
    }
  }

  /**
   * The obstacles after a step are exactly the old ones moved down by `Speed`
   * whose new top is still on the board.
   */
  lemma {:induction false} AdvancedMembers(obs: seq<Obstacle>, o: Obstacle)
    ensures o in Advanced(obs) <==>
      exists k :: 0 <= k < |obs| && obs[k].top + Speed <= BoardHeight && o == obs[k].(top := obs[k].top + Speed)
    decreases |obs|
  {
    if obs != [] {
      var init := obs[..|obs| - 1];
      var last := obs[|obs| - 1];
      AdvancedMembers(init, o);
      if o in Advanced(obs) {
        if o in Advanced(init) {
          var k :| 0 <= k < |init| && init[k].top + Speed <= BoardHeight && o == init[k].(top := init[k].top + Speed);
          assert obs[k] == init[k];
        } else {
          assert o in Advance(last);
        }
      } else {
        forall k | 0 <= k < |obs| && obs[k].top + Speed <= BoardHeight
          ensures o != obs[k].(top := obs[k].top + Speed)
        {
          if k < |init| {
            assert obs[k] == init[k];
          } else {
            assert o !in Advance(last);
          }
        }
      }
    }
  }

  /** After a step every obstacle is at or above the bottom of the board. */
  lemma AdvancedWithinBoard(obs: seq<Obstacle>)
    ensures forall k :: 0 <= k < |Advanced(obs)| ==> Advanced(obs)[k].top <= BoardHeight
  {
    forall k | 0 <= k < |Advanced(obs)| ensures Advanced(obs)[k].top <= BoardHeight {
      AdvancedMembers(obs, Advanced(obs)[k]);
    }
  }

  /** A step keeps the board invariant: lanes are kept and tops stay in range. */
  lemma AdvancedOnBoard(obs: seq<Obstacle>)
    requires OnBoard(obs)
    ensures OnBoard(Advanced(obs))
  {
    forall k | 0 <= k < |Advanced(obs)|
      ensures IsLane(Advanced(obs)[k].lane) && SpawnTop <= Advanced(obs)[k].top <= BoardHeight
    {
      AdvancedMembers(obs, Advanced(obs)[k]);
    }
  }

  /** When nobody reaches the bottom, a step moves every obstacle down and removes none. */
  lemma {:induction false} AdvancedKeepsAll(obs: seq<Obstacle>)
    requires forall k :: 0 <= k < |obs| ==> obs[k].top + Speed <= BoardHeight
    ensures |Advanced(obs)| == |obs|
    ensures forall k :: 0 <= k < |obs| ==> Advanced(obs)[k] == Obstacle(obs[k].lane, obs[k].top + Speed)
    decreases |obs|
  {
    if obs != [] {
      var init := obs[..|obs| - 1];
      AdvancedKeepsAll(init);
    }
  }

  /** An obstacle already past the bottom after moving is removed, and only it. */
  lemma AdvancedDropsLeaver(obs: seq<Obstacle>, o: Obstacle)
    requires o.top + Speed > BoardHeight
    ensures Advanced(obs + [o]) == Advanced(obs)
  {
    AdvancedConcat(obs, [o]);
    assert Advanced([o]) == Advanced([]) + Advance(o);
  }

  /** Spawning one more lane of a row appends one obstacle for it. */
  lemma SpawnedStep(lanes: seq<int>, i: nat)
    requires i < |lanes|
    ensures Spawned(lanes[..i + 1]) == Spawned(lanes[..i]) + [Obstacle(lanes[i], SpawnTop)]
  {
  }

  /** A row spawned in distinct lanes has its obstacles in distinct lanes, all at the spawn offset. */
  lemma SpawnedRow(lanes: seq<int>)
    requires forall p, q :: 0 <= p < q < |lanes| ==> lanes[p] != lanes[q]
    ensures |Spawned(lanes)| == |lanes|
    ensures forall p, q :: 0 <= p < q < |lanes| ==> Spawned(lanes)[p].lane != Spawned(lanes)[q].lane
    ensures forall p :: 0 <= p < |lanes| ==> Spawned(lanes)[p].top == SpawnTop
  {
  }
}
