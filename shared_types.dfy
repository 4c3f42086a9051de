/**
  The 6-DOF vector layer: the canonical six-component vector `Vec6`, its
  fixed-order indexing and iteration, component-wise addition and
  subtraction, the dot product of the `Relative6DVector` capability, and the
  per-thruster `ForceAxis`.

  The capability is not a Dafny trait: every record that has the six
  accessors (here `ForceAxis` and `Vec6`, and the two velocity records of
  module Components) offers `Generic()`, the conversion into a `Vec6`, and
  the capability's `dot` of two such records is `Dot(a.Generic(), b.Generic())`.
*/
module SharedTypes {
  import opened Wrappers

  /**
    Three translational axes (forward, right, upwards) followed by three
    rotational ones (turn right, pitch up, roll right), in the fixed order
    that indexing and iteration use.
  */
  datatype Vec6 = Vec6(
    forward: real, right: real, upwards: real,
    turnRight: real, pitchUp: real, rollRight: real)
  {
    /** `get_generic` of the capability, built from the six accessors. */
    function Generic(): Vec6 {
      Vec6(forward, right, upwards, turnRight, pitchUp, rollRight)
    }
  }

  /** The all-zero vector (used to state the zero properties of `Dot`). */
  const Zero := Vec6(0.0, 0.0, 0.0, 0.0, 0.0, 0.0)

  /** For a `Vec6`, `get_generic` is the identity. */
  lemma GenericIsIdentity(v: Vec6)
    ensures v.Generic() == v
  {
  }

  /**
    `Index::index`: position 0..5 in the fixed field order. Any other index
    panics in the source, so callers must stay below 6.
  */
  function Index(v: Vec6, i: nat): real
    requires i < 6
  {
    if i == 0 then v.forward
    else if i == 1 then v.right
    else if i == 2 then v.upwards
    else if i == 3 then v.turnRight
    else if i == 4 then v.pitchUp
    else v.rollRight
  }

  /** The values at positions `from`..5, in index order. */
  function IndicesFrom(v: Vec6, from: nat): (s: seq<real>)
    requires from <= 6
    ensures |s| == 6 - from
    ensures forall k :: 0 <= k < |s| ==> s[k] == Index(v, from + k)
    decreases 6 - from
  {
    if from == 6 then [] else [Index(v, from)] + IndicesFrom(v, from + 1)
  }

  /** Indexing visits the six fields in declaration order. */
  lemma IndexFieldOrder(v: Vec6)
    ensures IndicesFrom(v, 0)
         == [v.forward, v.right, v.upwards, v.turnRight, v.pitchUp, v.rollRight]
  {
    var s := IndicesFrom(v, 0);
    assert s[0] == v.forward && s[1] == v.right && s[2] == v.upwards;
    assert s[3] == v.turnRight && s[4] == v.pitchUp && s[5] == v.rollRight;
  }

  /** Two vectors that agree at every index are the same vector. */
  lemma IndexExtensional(a: Vec6, b: Vec6)
    requires forall i :: 0 <= i < 6 ==> Index(a, i) == Index(b, i)
    ensures a == b
  {
    assert Index(a, 0) == Index(b, 0) && Index(a, 1) == Index(b, 1);
    assert Index(a, 2) == Index(b, 2) && Index(a, 3) == Index(b, 3);
    assert Index(a, 4) == Index(b, 4) && Index(a, 5) == Index(b, 5);
  }

  /** Component-wise addition (`derive_more::Add`). */
  function Add(a: Vec6, b: Vec6): Vec6 {
    Vec6(a.forward + b.forward, a.right + b.right, a.upwards + b.upwards,
         a.turnRight + b.turnRight, a.pitchUp + b.pitchUp, a.rollRight + b.rollRight)
  }

  /** Component-wise subtraction (`derive_more::Sub`). */
  function Sub(a: Vec6, b: Vec6): Vec6 {
    Vec6(a.forward - b.forward, a.right - b.right, a.upwards - b.upwards,
         a.turnRight - b.turnRight, a.pitchUp - b.pitchUp, a.rollRight - b.rollRight)
  }

  /** Addition and subtraction act index by index. */
  lemma AddSubAtIndex(a: Vec6, b: Vec6, i: nat)
    requires i < 6
    ensures Index(Add(a, b), i) == Index(a, i) + Index(b, i)
    ensures Index(Sub(a, b), i) == Index(a, i) - Index(b, i)
  {
  }

  /** Subtracting undoes adding, and the other way round. */
  lemma SubInvertsAdd(a: Vec6, b: Vec6)
    ensures Add(Sub(a, b), b) == a
    ensures Sub(Add(a, b), b) == a
    ensures Sub(a, a) == Zero
  {
  }

  /**
    The capability's `dot`: the sum of the six pairwise products, taken in
    the fixed field order.
  */
  function Dot(a: Vec6, b: Vec6): real {
    a.forward * b.forward
      + a.right * b.right
      + a.upwards * b.upwards
      + a.turnRight * b.turnRight
      + a.pitchUp * b.pitchUp
      + a.rollRight * b.rollRight
  }

  /** Reference definition of the dot product: a sum over positions 0..n-1. */
  function IndexedSum(a: Vec6, b: Vec6, n: nat): real
    requires n <= 6
  {
    if n == 0 then 0.0 else IndexedSum(a, b, n - 1) + Index(a, n - 1) * Index(b, n - 1)
  }

  /** `Dot` agrees with the sum of products of equal positions. */
  lemma {:induction false} DotIsIndexedSum(a: Vec6, b: Vec6)
    ensures Dot(a, b) == IndexedSum(a, b, 6)
  {
    assert IndexedSum(a, b, 1) == a.forward * b.forward;
    assert IndexedSum(a, b, 2) == IndexedSum(a, b, 1) + a.right * b.right;
    assert IndexedSum(a, b, 3) == IndexedSum(a, b, 2) + a.upwards * b.upwards;
    assert IndexedSum(a, b, 4) == IndexedSum(a, b, 3) + a.turnRight * b.turnRight;
    assert IndexedSum(a, b, 5) == IndexedSum(a, b, 4) + a.pitchUp * b.pitchUp;
  }

  lemma DotCommutative(a: Vec6, b: Vec6)
    ensures Dot(a, b) == Dot(b, a)
  {
  }

  /** A zero vector on either side gives 0. */
  lemma DotZero(v: Vec6)
    ensures Dot(Zero, v) == 0.0 && Dot(v, Zero) == 0.0
  {
  }

  /** `Dot` distributes over `Add` and `Sub` in its left argument. */
  lemma DotLinearLeft(a: Vec6, b: Vec6, c: Vec6)
    ensures Dot(Add(a, b), c) == Dot(a, c) + Dot(b, c)
    ensures Dot(Sub(a, b), c) == Dot(a, c) - Dot(b, c)
  {
  }

  /** `Dot` distributes over `Add` and `Sub` in its right argument. */
  lemma DotLinearRight(a: Vec6, b: Vec6, c: Vec6)
    ensures Dot(a, Add(b, c)) == Dot(a, b) + Dot(a, c)
    ensures Dot(a, Sub(b, c)) == Dot(a, b) - Dot(a, c)
  {
  }

  /** A vector dotted with itself is never negative. */
  lemma DotSelfNonNegative(v: Vec6)
    ensures Dot(v, v) >= 0.0
  {
    SquareNonNegative(v.forward);
    SquareNonNegative(v.right);
    SquareNonNegative(v.upwards);
    SquareNonNegative(v.turnRight);
    SquareNonNegative(v.pitchUp);
    SquareNonNegative(v.rollRight);
  }

  lemma SquareNonNegative(x: real)
    ensures x * x >= 0.0
  {
    if x < 0.0 {
      var y := -x;
      assert y > 0.0 && x * x == y * y;
    }
  }

  /**
    The per-thruster force axis: how the thruster's output projects onto each
    of the six degrees of freedom. No range is enforced.
  */
  datatype ForceAxis = ForceAxis(
    forward: real, right: real, upwards: real,
    turnRight: real, pitchUp: real, rollRight: real)
  {
    /** `get_generic`, built from the six accessors. */
    function Generic(): Vec6 {
      Vec6(forward, right, upwards, turnRight, pitchUp, rollRight)
    }
  }

  /** `ForceAxis::default()`: all six components zero. */
  const DefaultForceAxis := ForceAxis(0.0, 0.0, 0.0, 0.0, 0.0, 0.0)

  /** `get_generic` is lossless: it forgets nothing about a force axis. */
  lemma ForceAxisGenericLossless(a: ForceAxis, b: ForceAxis)
    ensures a.Generic() == b.Generic() <==> a == b
  {
  }

  /**
    The iterator `Vec6::into_iter` returns: it owns the vector and walks an
    index from 0 to 6.
  */
  class Vec6Iterator {
    var vector: Vec6
    var index: nat

    /** The index never passes 6. */
    ghost predicate Valid()
      reads this
    {
      index <= 6
    }

    /** The values still to be yielded, in order. */
    ghost function Remaining(): seq<real>
      reads this
      requires Valid()
    {
      IndicesFrom(vector, index)
    }

    /** `into_iter`: a fresh iterator starts at index 0. */
    constructor (v: Vec6)
      ensures Valid()
      ensures vector == v && index == 0
      ensures Remaining() == IndicesFrom(v, 0)
    {
      vector := v;
      index := 0;
    }

    /**
      `Iterator::next`: the value at the current index, advancing it, or
      `None` once all six have been yielded (then the index stays put).
    */
    method Next() returns (r: Option<real>)
      requires Valid()
      modifies this`index
      ensures Valid()
      ensures old(index) < 6 ==> r == Some(Index(vector, old(index))) && index == old(index) + 1
      ensures old(index) >= 6 ==> r == None && index == old(index)
      ensures old(Remaining()) == [] ==> r == None && Remaining() == []
      ensures old(Remaining()) != [] ==>
                r == Some(old(Remaining())[0]) && Remaining() == old(Remaining())[1..]
    {
      if index >= 6 {
        return None;
      }
      var result := Index(vector, index);
      index := index + 1;
      r := Some(result);
    }
  }

  /**
    A `for` loop over a fresh `Vec6`: it receives exactly the six fields in
    declaration order, the k-th equal to `v[k]`, and the exhausted iterator
    keeps answering `None`.
  */
  method IterateFresh(v: Vec6) returns (xs: seq<real>, after: Option<real>)
    ensures xs == [v.forward, v.right, v.upwards, v.turnRight, v.pitchUp, v.rollRight]
    ensures forall k :: 0 <= k < |xs| ==> xs[k] == Index(v, k)
    ensures after == None
  {
    var it := new Vec6Iterator(v);
    xs := [];
    var r := it.Next();
    while r.Some?
      invariant it.Valid() && it.vector == v
      invariant r.Some? ==> xs + [r.value] + it.Remaining() == IndicesFrom(v, 0)
      invariant r.None? ==> xs == IndicesFrom(v, 0) && it.Remaining() == []
      decreases |it.Remaining()| + (if r.Some? then 1 else 0)
    {
      xs := xs + [r.value];
      r := it.Next();
    }
    after := it.Next();
    IndexFieldOrder(v);
  }
}
