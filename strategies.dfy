/**
  Thrust allocation: the correction vector a vehicle needs, the interface
  every pure allocation strategy satisfies, and the exact-axis strategy,
  which scores each thruster by projecting the correction onto its force axis.
*/
module Strategies {
  import opened Scalar
  import opened SharedTypes
  import opened Components

  /** What a strategy is told about one thruster: its state and its force axis. */
  datatype ThrusterInfo = ThrusterInfo(thruster: Thruster, forceAxis: ForceAxis)

  /** The vehicle a set of thrusters belongs to: its measured and desired velocity. */
  datatype ParentInfo = ParentInfo(currentVelocity: CurrentVelocity,
                                   intendedVelocity: IntendedVelocity)
  {
    /**
      `difference`: the correction (the "aim"), intended minus current,
      component by component; adding the current velocity back gives the
      intended one.
    */
    function Difference(): (aim: Vec6)
      ensures forall i :: 0 <= i < 6 ==>
                Index(aim, i) == Index(intendedVelocity.Generic(), i)
                               - Index(currentVelocity.Generic(), i)
      ensures Add(aim, currentVelocity.Generic()) == intendedVelocity.Generic()
    {
      Sub(intendedVelocity.Generic(), currentVelocity.Generic())
    }
  }

  /**
    The contract of the `PureStrategy` interface: one strength per input
    thruster, none added and none dropped (so an empty input gives an empty
    output).
  */
  ghost predicate PureStrategyResult<ID>(blocks: map<ID, ThrusterInfo>, result: map<ID, real>)
  {
    result.Keys == blocks.Keys
  }

  /** The exact-axis score of one thruster: its force axis dotted with the aim. */
  function ExactAxisScore(axis: ForceAxis, aim: Vec6): real {
    Dot(axis.Generic(), aim.Generic())
  }

  /** Reference result of the exact-axis strategy: every thruster scored against `parent`'s aim. */
  function ExactAxisScores<ID(==)>(blocks: map<ID, ThrusterInfo>, parent: ParentInfo): (scores: map<ID, real>)
    ensures PureStrategyResult(blocks, scores)
    ensures blocks == map[] ==> scores == map[]
  {
    map id | id in blocks :: ExactAxisScore(blocks[id].forceAxis, parent.Difference())
  }

  /** `ExactAxisStrategy`, the reference `PureStrategy` implementation. */
  datatype ExactAxisStrategy = ExactAxisStrategy
  {
    /**
      `calculate`: drains `blocks` (in no particular order) and fills a fresh
      map with each thruster's force axis dotted with the parent's aim. The
      score is not clamped here.
    */
    method Calculate<ID(==)>(blocks: map<ID, ThrusterInfo>, parent: ParentInfo)
      returns (result: map<ID, real>)
      ensures PureStrategyResult(blocks, result)
      ensures forall id :: id in result ==>
                result[id] == ExactAxisScore(blocks[id].forceAxis, parent.Difference())
      ensures result == ExactAxisScores(blocks, parent)
    {
      result := map[];
      var aim := parent.Difference();
      var remaining := blocks;
      while remaining != map[]
        invariant forall id :: id in remaining ==> id in blocks && remaining[id] == blocks[id]
        invariant result.Keys == blocks.Keys - remaining.Keys
        invariant forall id :: id in result ==> result[id] == ExactAxisScore(blocks[id].forceAxis, aim)
        decreases |remaining|
      {
        var id :| id in remaining;
        var info := remaining[id];
        result := result[id := ExactAxisScore(info.forceAxis, aim)];
        remaining := remaining - {id};
      }
    }
  }

  /** A thruster with the default (all-zero) force axis scores 0 whatever the aim. */
  lemma ZeroAxisScoresZero(aim: Vec6)
    ensures ExactAxisScore(DefaultForceAxis, aim) == 0.0
  {
    DotZero(aim.Generic());
  }

  /**
    When the intended velocity equals the current one the aim is the zero
    vector, and every thruster scores 0 whatever its axis.
  */
  lemma ExactMatchScoresZero<ID>(blocks: map<ID, ThrusterInfo>, parent: ParentInfo)
    requires parent.intendedVelocity.Generic() == parent.currentVelocity.Generic()
    ensures parent.Difference() == Zero
    ensures forall id :: id in ExactAxisScores(blocks, parent) ==>
              ExactAxisScores(blocks, parent)[id] == 0.0
  {
    SubInvertsAdd(parent.intendedVelocity.Generic(), parent.currentVelocity.Generic());
    forall id | id in blocks
      ensures ExactAxisScore(blocks[id].forceAxis, parent.Difference()) == 0.0
    {
      DotZero(blocks[id].forceAxis.Generic());
    }
  }

  /**
    A vehicle whose two velocity components are both defaulted (all zero)
    asks for no correction, so every thruster scores 0.
  */
  lemma DefaultVelocitiesScoreZero<ID>(blocks: map<ID, ThrusterInfo>)
    ensures ParentInfo(DefaultCurrentVelocity, DefaultIntendedVelocity).Difference() == Zero
    ensures forall id :: id in blocks ==>
              ExactAxisScores(blocks, ParentInfo(DefaultCurrentVelocity, DefaultIntendedVelocity))[id] == 0.0
  {
    ExactMatchScoresZero(blocks, ParentInfo(DefaultCurrentVelocity, DefaultIntendedVelocity));
  }

  /**
    The score splits along the two velocities: the axis dotted with the
    intended velocity minus the axis dotted with the current one.
  */
  lemma ScoreSplitsOverVelocities(axis: ForceAxis, parent: ParentInfo)
    ensures ExactAxisScore(axis, parent.Difference())
         == Dot(axis.Generic(), parent.intendedVelocity.Generic())
          - Dot(axis.Generic(), parent.currentVelocity.Generic())
  {
    GenericIsIdentity(parent.Difference());
    DotLinearRight(axis.Generic(), parent.intendedVelocity.Generic(),
                   parent.currentVelocity.Generic());
  }

  /** Reversing the correction reverses every score. */
  lemma ScoreOddInAim(axis: ForceAxis, aim: Vec6)
    ensures ExactAxisScore(axis, Sub(Zero, aim)) == -ExactAxisScore(axis, aim)
  {
    DotLinearRight(axis.Generic(), Zero, aim);
    DotZero(axis.Generic());
  }

  /**
    Parallel axis: axis (1,0,0,0,0,0) against aim (2,0,0,0,0,0) scores 2,
    which the status setter then clamps to 1. Opposed axis: against aim
    (-1,0,0,0,0,0) the score is -1, clamped to 0. The strategy itself leaves
    both outside [0, 1].
  */
  lemma AxisScenarios()
    ensures ExactAxisScore(ForceAxis(1.0, 0.0, 0.0, 0.0, 0.0, 0.0),
                           Vec6(2.0, 0.0, 0.0, 0.0, 0.0, 0.0)) == 2.0
    ensures Clamp(2.0, 0.0, 1.0) == 1.0
    ensures ExactAxisScore(ForceAxis(1.0, 0.0, 0.0, 0.0, 0.0, 0.0),
                           Vec6(-1.0, 0.0, 0.0, 0.0, 0.0, 0.0)) == -1.0
    ensures Clamp(-1.0, 0.0, 1.0) == 0.0
  {
  }
}
