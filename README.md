# Driving controller of the physics car demo

The demo drives a four-wheeled car, built from rigid bodies and hinge constraints, over bumpy
ground. It renders the car in real time and follows it with a chase camera. This project models
the part of `client-comment.ts` with algorithmic content: the per-frame controller.

- **Key table.** `keyMap` records, for each key code, whether the key is held. The
  `onDocumentKey` listener writes it on every keydown and keyup.
- **Control block.** Once per frame, `animate()` reads the table and updates three module-level
  variables:
  - `forwardVelocity`, the drive speed;
  - `rightVelocity`, the steering value;
  - `thrusting`, whether W/S (or their arrows) is held.
- **Outputs.** The drive speed becomes the motor speed of both rear drive hinges. The steering
  value becomes the z component of the axis of both front drive hinges.
- **Clamps.** The frame also caps the physics time step at 0.1 and keeps the chase camera's target
  at height 1 or more.

Modules:

- `Keyboard` (keyboard.dfy): the key table as a `map<string, bool>`, the update one event makes
  (`Latch`), and the five inputs a tick reads from the table (`Sample`).
- `Controller` (controller.dfy): the control block as a pure function `Step` on a `VehicleState`.
  It works in scaled integers: drive speed in quarters (`forward4`), steering in tenths
  (`right10`). Every change the source makes is a whole number of these units. `Run` and `Hold`
  apply many ticks.
- `ControllerProperties` (controller_properties.dfy): what many ticks do.
  - Drive speed is bounded, and the bound 100.75 is reached.
  - Coasting settles at zero.
  - Braking reaches zero and stays there.
  - Steering never re-centres.
- `ExactArithmetic` (exact.dfy): the control block again, on real numbers in the source's own
  units, one `if` at a time. Lemmas prove it agrees with the scaled controller on every input.
  It follows that every drive speed reached from rest is a multiple of 0.25.
- `FrameClamps` (clamps.dfy): the time-step cap and the camera-height floor.
- `Vehicle` (car.dfy): the mutable state as a class `Car`.
  - Fields: the key table, the three control variables and the four drive hinges.
  - `OnDocumentKey` is the event listener.
  - `Tick` is the control block. It runs its six `if` blocks as six methods, in source order.
  - `WriteMotors` writes the hinges.
  - `Animate` is the modelled part of one frame.

The code has a few consequences that its comments and names do not suggest. The model follows
the code in each case:

- The forward guard at client-comment.ts:476 tests `forwardVelocity < 100.0` before adding 1. The
  test is on the old value, so the speed can pass 100. Coast to 99.75, then one forward tick
  gives 100.75 (`CapOvershoot`). The bound that actually holds is ±100.75 (`RunFromRestInRange`).
- Only W/S set `thrusting`. The coast block at client-comment.ts:508 runs whenever `!thrusting`, so
  it also runs on a tick where only Space is held. Braking therefore removes 1.25 per tick, not 1.
  From 100 the speed reaches 0 at tick 80 (`BrakeFromFullSpeed`).
- The comment at client-comment.ts:496 says Space brings the forward velocity toward 0. The two
  brake `if`s at client-comment.ts:498-503 run one after the other, so this does not hold exactly:
  - a speed strictly between 0 and 1 is lowered and then raised back, and comes out unchanged
    (`Controller.Brake`);
  - a speed strictly between −1 and 0 is raised past zero to a positive value
    (`BrakeFlipsSmallNegative`).
- With W and Space held together and a speed in [0, 100), forward adds 1, the brake takes 1 off,
  and `thrusting` suppresses the coast step. The speed stays where it is for as long as both are
  held, so braking while driving forward does not slow the car (`ForwardAndBrakeHold`). From a
  negative speed the brake adds instead: a speed below −1 rises by 2 per tick, and one in
  [−1, 0) rises by 1 (`ForwardAndBrakeFromReverse`).
- The left keys *lower* `rightVelocity` (client-comment.ts:488) and the right keys raise it
  (client-comment.ts:493). Nothing ever moves steering back toward 0 (`NoAutoCentre`).

## Model

| member | source | states |
|---|---|---|
| `Keyboard.Latch` | client-comment.ts:332-335 | after an event for `code`, that code reads as held exactly when the event was a keydown; every other code reads as before; the table gains only `code` |
| `Keyboard.Sample` | client-comment.ts:475-497 | forward is held exactly when W or ArrowUp reads true, backward for S or ArrowDown, left for A or ArrowLeft, right for D or ArrowRight, brake for Space; a code with no entry reads as not held, so a table of releases samples as no input |
| `Keyboard.OtherKeysIgnored` | client-comment.ts:475-497 | an event for a key other than W, S, A, D, the four arrows and Space changes none of the inputs the tick reads |
| `Keyboard.SpaceLatchesBrake` | client-comment.ts:333-334 | on any table, a Space event sets the brake input to whether it was a keydown and leaves the other four inputs unchanged |
| `Controller.Accelerate` | client-comment.ts:476 | below 100 the speed rises by exactly 1, and at 100 or above it is unchanged; a speed within 100.75 stays within it |
| `Controller.Reverse` | client-comment.ts:482 | above −100 the speed falls by exactly 1, and at −100 or below it is unchanged; a speed within −100.75 stays within it |
| `Controller.SteerLeft` | client-comment.ts:488 | steering changes exactly when it is above −1, and then by exactly 0.1 down; ±1 is preserved |
| `Controller.SteerRight` | client-comment.ts:493 | steering changes exactly when it is below 1, and then by exactly 0.1 up; ±1 is preserved |
| `Controller.Brake` | client-comment.ts:497-504 | at least 1 loses 1; a speed in [0, 1) is unchanged; a speed in (−1, 0) gains 1 and becomes positive; at most −1 gains 1 |
| `Controller.Coast` | client-comment.ts:508-516 | zero stays zero; any other speed loses exactly 0.25 of magnitude without changing sign |
| `Controller.Step` | client-comment.ts:470-516 | `thrusting` holds exactly when forward or backward is held; the range ±100.75 / ±1 is preserved; steering moves one tenth per held key within ±1 and is unchanged when neither A nor D is held; with both held it is unchanged, except at −1, where it rises to −0.9; with no W/S/Space the speed coasts one quarter toward zero without crossing it; forward alone adds 1 only below 100, backward alone subtracts 1 only above −100 |
| `Controller.Run` | client-comment.ts:470-516 | any number of ticks from an in-range state stays in range |
| `ControllerProperties.RunFromRestInRange` | client-comment.ts:337-338 | from the initial 0/0, after any ticks the drive speed is within ±100.75 and steering within ±1 |
| `ControllerProperties.ForwardRamp` | client-comment.ts:475-478 | while below the cap, each forward tick adds exactly 1 |
| `ControllerProperties.ForwardPlateau` | client-comment.ts:476 | at exactly 100, holding forward leaves the speed at 100 |
| `ControllerProperties.ForwardFromRest` | client-comment.ts:475-478 | from rest, n forward ticks give n for n ≤ 100, and 100 for every n ≥ 100 |
| `ControllerProperties.CapOvershoot` | client-comment.ts:475-516 | 100 forward ticks, one idle tick, then one forward tick give 100.75, above the nominal cap |
| `ControllerProperties.CoastSettles` | client-comment.ts:508-516 | n idle ticks lower the magnitude by 0.25 per tick, stop at 0 without a sign change, and leave steering alone |
| `ControllerProperties.BrakeFlipsSmallNegative` | client-comment.ts:497-504 | for a speed strictly between −1 and 0, the brake block alone adds 1, giving a positive value; with coasting the tick ends at or above 0 |
| `ControllerProperties.BrakeRamp` | client-comment.ts:496-516 | holding only Space lowers a speed of at least 1.25·k by exactly 1.25 per tick for k ticks |
| `ControllerProperties.BrakeStepDecreases` | client-comment.ts:496-516 | one brake-only tick takes a positive speed strictly lower but not below 0, keeps 0 at 0, and strictly lowers the brake measure of any nonzero speed |
| `ControllerProperties.BrakeSettles` | client-comment.ts:496-516 | holding only Space brings any speed to exactly 0 within a bounded number of ticks and keeps it there |
| `ControllerProperties.BrakeFromFullSpeed` | client-comment.ts:496-516 | from 100 with only Space held, 1.25 is left after 79 ticks and the speed is 0 from tick 80 on |
| `ControllerProperties.ForwardAndBrakeHold` | client-comment.ts:475-516 | with W and Space held together, a speed in [0, 100) does not change in one tick or over any number of ticks |
| `ControllerProperties.ForwardAndBrakeFromReverse` | client-comment.ts:475-504 | with W and Space held, a speed below −1 rises by 2 in one tick and a speed in [−1, 0) rises by 1 |
| `ControllerProperties.NoAutoCentre` | client-comment.ts:487-494 | over any ticks in which neither A nor D (nor their arrows) is held, steering does not change |
| `ControllerProperties.TapLeft` | client-comment.ts:487-489 | one left tick from straight moves steering to −0.1, where it stays through any number of idle ticks |
| `ExactArithmetic.ExactStep` | client-comment.ts:470-516 | the block in source units: `thrusting` holds exactly when W or S is held; steering is unchanged without A/D; speed within ±101 and steering within ±1.1 are kept on arbitrary reals |
| `ExactArithmetic.ExactRun` | client-comment.ts:470-516 | any number of ticks in source units keeps speed within ±101 and steering within ±1.1 |
| `ExactArithmetic.StepIsExact` | client-comment.ts:470-516 | the scaled tick and the tick on reals in source units give the same state on every input |
| `ExactArithmetic.RunIsExact` | client-comment.ts:470-516 | the same agreement holds for any sequence of ticks |
| `ExactArithmetic.ReachableFromRest` | client-comment.ts:337-338 | from 0/0 in source units, after any ticks the drive speed is a multiple of 0.25 within ±100.75, and steering (in exact arithmetic) a multiple of 0.1 within ±1 |
| `FrameClamps.ClampDelta` | client-comment.ts:400 | the physics step is at most 0.1 and at most the elapsed time; it equals the elapsed time when that is at most 0.1, and 0.1 otherwise |
| `FrameClamps.ClampTargetHeight` | client-comment.ts:528-531 | the camera target's height is at least 1; it is unchanged when already at least 1 and becomes 1 otherwise; x and z are untouched |
| `Vehicle.Hinge.constructor` | client-comment.ts:298-329 | a new drive hinge has its motor enabled as requested, motor speed 0 and axis z 0 |
| `Vehicle.Car.constructor` | client-comment.ts:328-338 | the initial state: empty key table, speed and steering 0, four distinct hinges, motors enabled on the rear two only |
| `Vehicle.Car.OnDocumentKey` | client-comment.ts:333-335 | the table becomes `Latch` of the old table with the event's code, held exactly when the event type is "keydown" |
| `Vehicle.Car.Tick` | client-comment.ts:470-516 | the new speed, steering and `thrusting` are `Step` of the old ones under the inputs sampled from the table |
| `Vehicle.Car.ForwardKey` | client-comment.ts:475-478 | W/ArrowUp adds 1 while below 100 and sets `thrusting` |
| `Vehicle.Car.BackwardKey` | client-comment.ts:481-484 | S/ArrowDown subtracts 1 while above −100 and sets `thrusting` |
| `Vehicle.Car.LeftKey` | client-comment.ts:487-489 | A/ArrowLeft subtracts 0.1 from steering while above −1 |
| `Vehicle.Car.RightKey` | client-comment.ts:492-494 | D/ArrowRight adds 0.1 to steering while below 1 |
| `Vehicle.Car.SpaceKey` | client-comment.ts:497-504 | Space runs the two brake `if`s in sequence |
| `Vehicle.Car.CoastWhenIdle` | client-comment.ts:508-516 | when not thrusting, the speed moves 0.25 toward zero |
| `Vehicle.Car.WriteMotors` | client-comment.ts:519-522 | both rear motors get the same speed, the drive speed; both front axes get z equal to steering; the other motor speeds and axes keep their values |
| `Vehicle.Car.Animate` | client-comment.ts:400-531 | one frame: the time step is `ClampDelta` of the elapsed time; the control state is `Step` of the old state; the hinges are written as by `WriteMotors`; the camera target is `ClampTargetHeight` of the pivot position |

## Left out

- Scene, lights, shadows, meshes, renderer, window resizing and the render call: rendering library
  calls with no control logic.
- Physics world, body and hinge construction, `world.step` and the solver: an opaque engine. The
  model records only the values written into the hinges. The hinges' pivots, the 0.99 force limit
  and the x and y of their axes are not modelled.
- Random placement of the 200 ramp obstacles: it depends on `Math.random` and library objects.
- Copying body positions and rotations into meshes: field-for-field copies between library
  objects.
- `camera.lookAt` and the 0.05 `lerpVectors` smoothing of the camera position: floating-point
  vector operations on library types. `Animate` returns the clamped target instead.
- Stats, the dat.GUI gravity sliders, the debug renderer, `helper.update()` and the
  `requestAnimationFrame` scheduling: user interface and host scheduling. The elapsed time from
  the clock and the chase pivot's world position are parameters of `Animate`.
- Controller.Step: steering is modelled in exact tenths. In JavaScript doubles, repeated ±0.1
  does not land exactly on ±1, so the real program can go one step past the limit, to about
  ±1.1. IEEE rounding is not modelled. `ExactArithmetic.ExactStep` on arbitrary reals keeps only
  ±101 and ±1.1, because the guards test the old value. Drive speed is exact in both, because multiples of 0.25 up
  to 100.75 are exact doubles.
- FrameClamps.ClampDelta: models `Math.min` on real numbers. A NaN elapsed time is not
  modelled.
- Keyboard.Latch: the key table is a map from strings. Inherited JavaScript object properties
  (such as a code named `__proto__`) are not modelled.
