# Thruster allocation core, modelled in Dafny

This project models the thrust-allocation logic of a multi-thruster vehicle
plugin. Given each thruster's force axis and the vehicle's current and
intended velocity, it computes a strength per thruster.

The model has five modules:

- `Wrappers` (`wrappers.dfy`): the `Option` an iterator step returns.
- `Scalar` (`scalar.dfy`): `f32::max` and `f32::clamp`, on mathematical reals.
- `SharedTypes` (`shared_types.dfy`): the 6-DOF vector layer.
  - `Vec6` and its fixed-order `Index`.
  - Component-wise `Add`/`Sub`.
  - `Dot`, the dot product of the `Relative6DVector` capability.
  - The per-thruster `ForceAxis`.
  - The `Vec6Iterator` class, whose `Next` advances an index from 0 to 6.
- `Components` (`components.dfy`): the `Thruster` class and the two velocity records.
  - `Thruster` keeps `strengthFactor` and `currentStatus`; its setters correct the value they store.
  - The velocity records are `CurrentVelocity` and `IntendedVelocity`.
- `Strategies` (`strategies.dfy`): the strategy pieces.
  - The correction vector `ParentInfo.Difference`.
  - The `PureStrategy` contract, as `PureStrategyResult`: the key set is preserved.
  - `ExactAxisStrategy.Calculate`, which drains the input map. For each thruster it stores the force axis dotted with the correction.

The `Relative6DVector` capability is a Rust trait. Here, every six-axis record
(`Vec6`, `ForceAxis`, `CurrentVelocity`, `IntendedVelocity`) has a `Generic()`
conversion into `Vec6`. The capability's `dot` of two records is
`Dot(a.Generic(), b.Generic())`. The `PureStrategy` trait has one
implementation. It appears here as the predicate that implementation ensures.

Where the documentation and the code disagree, the model follows the code:

- The `PureStrategy` trait calls its results the thrusters' strengths
  (src/lib.rs:384-385), and `current_status` is documented as lying between
  0 and 1 inclusive (src/lib.rs:266). But `ExactAxisStrategy::calculate`
  (src/lib.rs:413-417) returns raw dot products, so `Calculate` returns them
  unclamped; `AxisScenarios` exhibits the scores 2 and -1. Both the status
  setter (src/lib.rs:315) and the status getter (src/lib.rs:304) clamp to
  [0, 1]. The source has no caller that writes the scores back into a
  thruster.
- The documentation says both thruster scalars are always in range. But
  `new_with_strength_factor` (src/lib.rs:278-283) stores its argument as
  given. So the only invariant the model keeps is `StatusInRange`, for
  `currentStatus`. A negative factor is corrected by the getter
  `GetStrengthFactor` and by the setter `SetStrengthFactor`.

## Model

| member | source | states |
|---|---|---|
| `Scalar.Max` | src/lib.rs:290-301 | the result is at least both arguments and is one of them (`f32::max` as used for the strength factor) |
| `Scalar.Clamp` | src/lib.rs:303-316 | for an ordered range the result lies in it; a value inside is kept; a value below or above gives the nearer bound |
| `Scalar.ClampIdempotent` | src/lib.rs:303-316 | clamping an already clamped value changes nothing |
| `Scalar.MaxIdempotent` | src/lib.rs:290-301 | flooring an already floored value changes nothing |
| `SharedTypes.GenericIsIdentity` | src/lib.rs:123-132 | for a `Vec6`, `get_generic` returns the same vector |
| `SharedTypes.IndicesFrom` | src/lib.rs:210-219 | the values at positions `from`..5 form a sequence of length `6 - from` whose k-th element is `v[from + k]` |
| `SharedTypes.IndexFieldOrder` | src/lib.rs:210-219 | indexing positions 0..5 yields forward, right, upwards, turn right, pitch up, roll right, in that order |
| `SharedTypes.IndexExtensional` | src/lib.rs:210-219 | two vectors equal at all six indices are equal, so indexing loses nothing |
| `SharedTypes.AddSubAtIndex` | src/lib.rs:196 | `Add` and `Sub` act index by index |
| `SharedTypes.SubInvertsAdd` | src/lib.rs:196 | `(a - b) + b == a`, `(a + b) - b == a`, `a - a` is the zero vector |
| `SharedTypes.DotIsIndexedSum` | src/lib.rs:134-144 | `Dot` equals the sum over positions 0..5 of `a[i] * b[i]` (an independent reference definition) |
| `SharedTypes.DotCommutative` | src/lib.rs:134-144 | `a.dot(b) == b.dot(a)` |
| `SharedTypes.DotZero` | src/lib.rs:134-144 | a zero vector on either side gives 0 |
| `SharedTypes.DotLinearLeft` | src/lib.rs:134-144 | `Dot` distributes over `Add` and `Sub` on the left |
| `SharedTypes.DotLinearRight` | src/lib.rs:134-144 | `Dot` distributes over `Add` and `Sub` on the right |
| `SharedTypes.DotSelfNonNegative` | src/lib.rs:134-144 | `x.dot(x) >= 0` |
| `SharedTypes.ForceAxisGenericLossless` | src/lib.rs:123-132 | two force axes have the same `get_generic` exactly when they are equal |
| `SharedTypes.Vec6Iterator.constructor` | src/lib.rs:232-237 | `into_iter` gives an iterator at index 0 that still has all six values to yield |
| `SharedTypes.Vec6Iterator.Next` | src/lib.rs:243-251 | below 6 it yields `this[index]` and advances the index by one; at 6 it yields `None` and the index stays; the remaining values lose their head each step; the index never passes 6 |
| `SharedTypes.IterateFresh` | src/lib.rs:228-251 | a fresh iterator yields exactly the six fields in declaration order, the k-th equal to `v[k]`, and then `None` |
| `Components.Thruster.NewWithStrengthFactor` | src/lib.rs:278-283 | stores the factor as given, sets the status to 0 |
| `Components.Thruster.constructor` | src/lib.rs:271-288 | `Default`/`new`: factor 1, status 0 |
| `Components.Thruster.GetStrengthFactor` | src/lib.rs:290-292 | never negative, even after a negative factor was given to the constructor; returns a non-negative stored factor unchanged |
| `Components.Thruster.SetStrengthFactor` | src/lib.rs:294-301 | stores `max(x, 0)`, so a non-negative `x` is stored as is; the status is unchanged; returns the same thruster |
| `Components.Thruster.GetCurrentStatus` | src/lib.rs:303-305 | always in [0, 1]; returns an in-range stored status unchanged, 0 for a status below 0 and 1 for one above 1 |
| `Components.Thruster.SetCurrentStatus` | src/lib.rs:307-317 | stores `clamp(x, 0, 1)`, so an in-range `x` is stored as is; the factor is unchanged; the status stays in range; returns the same thruster |
| `Components.VelocityGenericLossless` | src/lib.rs:320-344 | `get_generic` of either velocity record is injective |
| `Components.SetThenGetStatus` | src/lib.rs:303-316 | writing `x` and reading back gives `clamp(x, 0, 1)`; writing that value again changes nothing; the strength factor is untouched |
| `Strategies.ParentInfo.Difference` | src/lib.rs:378-381 | each component of the aim is intended minus current; aim plus current gives intended |
| `Strategies.ExactAxisScores` | src/lib.rs:387-421 | the reference result has exactly the input's key set (the `PureStrategy` contract); empty input gives empty output |
| `Strategies.ExactAxisStrategy.Calculate` | src/lib.rs:406-421 | the result has the input's key set; each value is the thruster's force axis dotted with `difference()`, unclamped; equals the reference result |
| `Strategies.ZeroAxisScoresZero` | src/lib.rs:184-194 | a thruster with the default all-zero force axis scores 0 for any aim |
| `Strategies.ExactMatchScoresZero` | src/lib.rs:407-420 | when intended equals current velocity, the aim is zero and every thruster scores 0 |
| `Strategies.DefaultVelocitiesScoreZero` | src/lib.rs:320-344 | with both velocity records at their derived `Default` (all zero) the aim is zero and every thruster scores 0 |
| `Strategies.ScoreSplitsOverVelocities` | src/lib.rs:378-381 | a score is the axis dotted with the intended velocity minus the axis dotted with the current one |
| `Strategies.ScoreOddInAim` | src/lib.rs:413-416 | reversing the aim negates every score |
| `Strategies.AxisScenarios` | src/lib.rs:413-416 | parallel axis scores 2 (clamped to 1 on write); opposed axis scores -1 (clamped to 0 on write) |

## Left out

- The `plugins` and `systems` modules (src/lib.rs:18-110) are not modelled. They register schedules and sync `InternalForce` components through the host engine's ECS, whose behaviour lives in libraries outside this model.
- Also left out: the `prelude` re-exports, the `examples::basic` bundle, the derives (`Reflect`, `InspectorOptions`, `WorldQuery`), and the two tests (src/lib.rs:395-402, 423-430). They carry no behaviour.
- examples/visuals.rs is not part of this model. It is rendering and scene setup.
- The `warn!` diagnostics under the `debug` feature (src/lib.rs:295-298, 308-314) are not modelled. They are logging side effects.
- `f32` arithmetic is modelled as `real`. Rounding, NaN and infinities are not captured. In Rust, `f32::max` maps NaN to the other argument and `clamp` passes NaN through, so these cases are outside the model.
- `HashMap` iteration and drain order in `calculate` is not fixed. The model drains keys in an arbitrary order and specifies only the resulting map. The capacity hint of `with_capacity` is not modelled.
- The keys of the strategy's maps are borrowed references (`&'w ID`). They are modelled as `ID` values with equality, which is what the map's `Hash + Eq` keying uses. Lifetimes and borrowing are not modelled.
- Traits are not modelled as such, and object safety of `PureStrategy` has no counterpart.
  - `Relative6DVector` becomes a `Generic()` function on each record.
  - `dot` takes its right operand through the same conversion.
  - `PureStrategy` becomes the `PureStrategyResult` predicate.
- `Vec6` indexing out of range panics in the source. `Index` therefore requires `i < 6` instead of modelling the panic.
