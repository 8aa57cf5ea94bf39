/** What the control block does over many ticks: the bound on drive speed and its overshoot,
    coasting, braking to rest, and steering that never re-centres. */
module ControllerProperties {
  import opened Keyboard
  import opened Controller

  /** Holding the same inputs for `m` and then `n` ticks is holding them for `m + n` ticks. */
  lemma {:induction false} HoldSplit(s: VehicleState, c: Controls, m: nat, n: nat)
    ensures Hold(Hold(s, c, m), c, n) == Hold(s, c, m + n)
    decreases m
  {
    if m > 0 {
      HoldSplit(Step(s, c), c, m - 1, n);
    }
  }

  /** Starting from rest, any sequence of ticks keeps drive speed within ±100.75 and steering
      within ±1. */
  lemma {:induction false} RunFromRestInRange(cs: seq<Controls>)
    ensures -ForwardBound <= Run(Rest, cs).forward4 <= ForwardBound
    ensures -SteerCap <= Run(Rest, cs).right10 <= SteerCap
  {
    assert InRange(Rest);
  }

  /** While below the cap, each tick of forward adds exactly one drive step. */
  lemma {:induction false} ForwardRamp(s: VehicleState, n: nat)
    requires s.forward4 + DriveStep * n <= DriveCap
    ensures Hold(s, ForwardOnly, n).forward4 == s.forward4 + DriveStep * n
    decreases n
  {
    if n > 0 {
      ForwardRamp(Step(s, ForwardOnly), n - 1);
    }
  }

  /** At the cap, holding forward changes nothing. */
  lemma {:induction false} ForwardPlateau(s: VehicleState, n: nat)
    requires s.forward4 == DriveCap
    ensures Hold(s, ForwardOnly, n).forward4 == DriveCap
    decreases n
  {
    if n > 0 {
      ForwardPlateau(Step(s, ForwardOnly), n - 1);
    }
  }

  /** From rest, holding forward reaches 100 after 100 ticks and stays there while it is held. */
  lemma ForwardFromRest(n: nat)
    ensures n <= 100 ==> Hold(Rest, ForwardOnly, n).forward4 == DriveStep * n
    ensures n >= 100 ==> Hold(Rest, ForwardOnly, n).forward4 == DriveCap
  {
    if n <= 100 {
      ForwardRamp(Rest, n);
    } else {
      ForwardRamp(Rest, 100);
      HoldSplit(Rest, ForwardOnly, 100, n - 100);
      ForwardPlateau(Hold(Rest, ForwardOnly, 100), n - 100);
    }
  }

  /** The nominal cap of 100 is not exact: 100 forward ticks, one coasting tick (to 99.75) and
      one more forward tick give 100.75, the largest value the controller can reach. */
  lemma CapOvershoot()
    ensures Step(Step(Hold(Rest, ForwardOnly, 100), Idle), ForwardOnly).forward4 == ForwardBound
  {
    ForwardFromRest(100);
  }

  /** Coasting for `n` ticks (no W, S or Space) moves drive speed towards zero by one coast step
      per tick, stops at zero without crossing it, and leaves steering alone. */
  lemma {:induction false} CoastSettles(s: VehicleState, n: nat)
    ensures s.forward4 >= 0 ==> Hold(s, Idle, n).forward4 == if s.forward4 >= n then s.forward4 - n else 0
    ensures s.forward4 < 0 ==> Hold(s, Idle, n).forward4 == if -s.forward4 >= n then s.forward4 + n else 0
    ensures Hold(s, Idle, n).right10 == s.right10
    decreases n
  {
    if n > 0 {
      CoastSettles(Step(s, Idle), n - 1);
    }
  }

  /** The brake block alone maps a small negative speed (between -1 and 0) to a positive one:
      the first `if` does nothing and the second adds a whole step. With coasting the tick ends
      at or above zero, e.g. -0.5 becomes 0.25 and -0.75 becomes 0. */
  lemma BrakeFlipsSmallNegative(s: VehicleState)
    requires -DriveStep < s.forward4 < 0
    ensures Brake(s.forward4) == s.forward4 + DriveStep > 0
    ensures Step(s, BrakeOnly).forward4 == s.forward4 + DriveStep - CoastStep >= 0
  {
  }

  /** Space alone does not set `thrusting`, so coasting also applies: above one step the speed
      falls by 1.25 per tick, not 1. */
  lemma {:induction false} BrakeRamp(s: VehicleState, k: nat)
    requires s.forward4 >= (DriveStep + CoastStep) * k
    ensures Hold(s, BrakeOnly, k).forward4 == s.forward4 - (DriveStep + CoastStep) * k
    decreases k
  {
    if k > 0 {
      BrakeRamp(Step(s, BrakeOnly), k - 1);
    }
  }

  /** A measure that every braking tick from a nonzero speed strictly lowers. Plain magnitude
      does not work: a speed just below zero is pushed above zero. */
  function BrakeMeasure(v: int): nat
  {
    if v >= 0 then v else DriveStep - v
  }

  /** One tick with only Space held: a positive speed falls and does not go below zero, zero
      stays zero, and every nonzero speed lowers the measure. */
  lemma BrakeStepDecreases(s: VehicleState)
    ensures s.forward4 > 0 ==> 0 <= Step(s, BrakeOnly).forward4 < s.forward4
    ensures s.forward4 == 0 ==> Step(s, BrakeOnly).forward4 == 0
    ensures s.forward4 != 0 ==> BrakeMeasure(Step(s, BrakeOnly).forward4) < BrakeMeasure(s.forward4)
  {
  }

  /** Holding only Space brings drive speed to exactly zero within `BrakeMeasure` ticks and
      keeps it there for every later tick. */
  lemma {:induction false} BrakeSettles(s: VehicleState, n: nat)
    requires n >= BrakeMeasure(s.forward4)
    ensures Hold(s, BrakeOnly, n).forward4 == 0
    decreases n
  {
    if n > 0 {
      BrakeStepDecreases(s);
      BrakeSettles(Step(s, BrakeOnly), n - 1);
    }
  }

  /** From 100, holding only Space: 1.25 is left after 79 ticks and 0 is reached at tick 80,
      where it stays. */
  lemma BrakeFromFullSpeed(s: VehicleState, n: nat)
    requires s.forward4 == DriveCap
    ensures Hold(s, BrakeOnly, 79).forward4 == DriveStep + CoastStep
    ensures n >= 80 ==> Hold(s, BrakeOnly, n).forward4 == 0
  {
    BrakeRamp(s, 79);
    if n >= 80 {
      BrakeRamp(s, 80);
      HoldSplit(s, BrakeOnly, 80, n - 80);
      BrakeSettles(Hold(s, BrakeOnly, 80), n - 80);
    }
  }

  /** W (or ArrowUp) held together with Space: below the cap the brake takes back exactly the
      step that forward adds, and `thrusting` suppresses the coast step, so a speed in [0, 100)
      does not change however long both are held. Braking while driving forward does not slow
      the car. */
  lemma {:induction false} ForwardAndBrakeHold(s: VehicleState, n: nat)
    requires 0 <= s.forward4 < DriveCap
    ensures Step(s, Controls(true, false, false, false, true)).forward4 == s.forward4
    ensures Hold(s, Controls(true, false, false, false, true), n).forward4 == s.forward4
    decreases n
  {
    if n > 0 {
      ForwardAndBrakeHold(Step(s, Controls(true, false, false, false, true)), n - 1);
    }
  }

  /** W (or ArrowUp) held together with Space from a negative speed: forward adds a step and the
      brake, finding the result at most zero, adds another, so the speed rises by two steps;
      from -1 or above it rises by one step, ending in [0, 1). */
  lemma ForwardAndBrakeFromReverse(s: VehicleState)
    requires s.forward4 < 0
    ensures s.forward4 < -DriveStep ==>
      Step(s, Controls(true, false, false, false, true)).forward4 == s.forward4 + 2 * DriveStep
    ensures -DriveStep <= s.forward4 ==>
      Step(s, Controls(true, false, false, false, true)).forward4 == s.forward4 + DriveStep
  {
  }

  /** Steering is unchanged over any ticks in which neither A nor D (nor their arrows) is held:
      there is no auto-centring. */
  lemma {:induction false} NoAutoCentre(s: VehicleState, cs: seq<Controls>)
    requires forall i :: 0 <= i < |cs| ==> !cs[i].left && !cs[i].right
    ensures Run(s, cs).right10 == s.right10
    decreases |cs|
  {
    if cs != [] {
      NoAutoCentre(Step(s, cs[0]), cs[1..]);
    }
  }

  /** A single tick of left from the centre moves steering by exactly one step, and it then
      stays there however long the keys stay released. */
  lemma TapLeft(s: VehicleState, n: nat)
    requires s.right10 == 0
    ensures Hold(Step(s, Controls(false, false, true, false, false)), Idle, n).right10 == -SteerStep
  {
    CoastSettles(Step(s, Controls(false, false, true, false, false)), n);
  }
}
