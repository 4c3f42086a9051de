/**
  The per-entity state the allocator reads and writes: the `Thruster`
  (strength factor and current status, both corrected at the mutation
  boundary) and the two velocity records of the vehicle.
*/
module Components {
  import opened Scalar
  import opened SharedTypes

  /**
    A thruster. `strengthFactor` scales the physical force and should not be
    negative; `currentStatus` is the commanded output in [0, 1].
  */
  class Thruster {
    var strengthFactor: real
    var currentStatus: real

    /** The status range every constructor and setter establishes. */
    ghost predicate StatusInRange()
      reads this
    {
      0.0 <= currentStatus <= 1.0
    }

    /**
      `new_with_strength_factor`: the factor is stored as given (it is not
      corrected here) and the status starts at 0.
    */
    constructor NewWithStrengthFactor(strengthFactor: real)
      ensures this.strengthFactor == strengthFactor
      ensures currentStatus == 0.0
      ensures StatusInRange()
    {
      this.strengthFactor := strengthFactor;
      currentStatus := 0.0;
    }

    /** `Default::default` and `new`: factor 1, status 0. */
    constructor ()
      ensures strengthFactor == 1.0
      ensures currentStatus == 0.0
      ensures StatusInRange()
    {
      strengthFactor := 1.0;
      currentStatus := 0.0;
    }

    /**
      `get_strength_factor`: never negative, even for a thruster built with a
      negative factor; a non-negative stored factor is returned as it is.
    */
    function GetStrengthFactor(): (r: real)
      reads this
      ensures r >= 0.0
      ensures strengthFactor >= 0.0 ==> r == strengthFactor
      ensures strengthFactor < 0.0 ==> r == 0.0
    {
      Max(strengthFactor, 0.0)
    }

    /**
      `set_strength_factor`: stores `max(x, 0)`, leaves the status alone and
      returns the thruster itself for chaining.
    */
    method SetStrengthFactor(x: real) returns (self: Thruster)
      modifies this
      ensures self == this
      ensures strengthFactor == Max(x, 0.0)
      ensures x >= 0.0 ==> strengthFactor == x
      ensures GetStrengthFactor() == strengthFactor
      ensures currentStatus == old(currentStatus)
    {
      strengthFactor := Max(x, 0.0);
      self := this;
    }

    /**
      `get_current_status`: always within [0, 1]; a stored status that is
      already in range is returned as it is.
    */
    function GetCurrentStatus(): (r: real)
      reads this
      ensures 0.0 <= r <= 1.0
      ensures StatusInRange() ==> r == currentStatus
      ensures currentStatus < 0.0 ==> r == 0.0
      ensures currentStatus > 1.0 ==> r == 1.0
    {
      Clamp(currentStatus, 0.0, 1.0)
    }

    /**
      `set_current_status`: stores `clamp(x, 0, 1)`, so an in-range value is
      stored unchanged, leaves the strength factor alone and returns the
      thruster itself for chaining.
    */
    method SetCurrentStatus(x: real) returns (self: Thruster)
      modifies this
      ensures self == this
      ensures StatusInRange()
      ensures currentStatus == Clamp(x, 0.0, 1.0)
      ensures 0.0 <= x <= 1.0 ==> currentStatus == x
      ensures GetCurrentStatus() == currentStatus
      ensures strengthFactor == old(strengthFactor)
    {
      currentStatus := Clamp(x, 0.0, 1.0);
      self := this;
    }
  }

  /** The vehicle's measured velocity in its own 6-DOF frame; no range is enforced. */
  datatype CurrentVelocity = CurrentVelocity(
    forward: real, right: real, upwards: real,
    turnRight: real, pitchUp: real, rollRight: real)
  {
    /** `get_generic`, built from the six accessors. */
    function Generic(): Vec6 {
      Vec6(forward, right, upwards, turnRight, pitchUp, rollRight)
    }
  }

  /** The vehicle's desired velocity in its own 6-DOF frame; no range is enforced. */
  datatype IntendedVelocity = IntendedVelocity(
    forward: real, right: real, upwards: real,
    turnRight: real, pitchUp: real, rollRight: real)
  {
    /** `get_generic`, built from the six accessors. */
    function Generic(): Vec6 {
      Vec6(forward, right, upwards, turnRight, pitchUp, rollRight)
    }
  }

  /** `Default` of either velocity record: all six components zero. */
  const DefaultCurrentVelocity := CurrentVelocity(0.0, 0.0, 0.0, 0.0, 0.0, 0.0)
  const DefaultIntendedVelocity := IntendedVelocity(0.0, 0.0, 0.0, 0.0, 0.0, 0.0)

  /** `get_generic` is lossless on both velocity records. */
  lemma VelocityGenericLossless(a: CurrentVelocity, b: CurrentVelocity,
                                c: IntendedVelocity, d: IntendedVelocity)
    ensures a.Generic() == b.Generic() <==> a == b
    ensures c.Generic() == d.Generic() <==> c == d
  {
  }

  /**
    Writing a status and reading it back gives the clamped value, and
    writing the value read back changes nothing.
  */
  method SetThenGetStatus(t: Thruster, x: real) returns (first: real, second: real)
    modifies t
    ensures first == Clamp(x, 0.0, 1.0)
    ensures second == first
    ensures t.currentStatus == first
    ensures t.strengthFactor == old(t.strengthFactor)
  {
    var _ := t.SetCurrentStatus(x);
    first := t.GetCurrentStatus();
    var _ := t.SetCurrentStatus(first);
    second := t.GetCurrentStatus();
  }
}
