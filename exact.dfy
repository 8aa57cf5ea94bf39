/** The control block written again in the source's own units, on real numbers, statement by
    statement. It serves as the reference for the scaled integer controller: the two agree on
    every input, so the integer model loses nothing, and every drive speed reached from rest is
    a whole number of quarters. */
module ExactArithmetic {
  import opened Keyboard
  import opened Controller

  datatype ExactState = ExactState(forwardVelocity: real, rightVelocity: real, thrusting: bool)

  const ExactRest := ExactState(0.0, 0.0, false)

  /** One tick in source units. `thrusting` is set exactly by W/S and steering is untouched
      when neither A nor D is held. On arbitrary reals the guards `< 100` and `> -1` let one
      step through from just inside the limit, so the ranges kept are ±101 and ±1.1; values
      reached from rest stay within the tighter ±100.75 and ±1 (`ReachableFromRest`). */
  function ExactStep(s: ExactState, c: Controls): (r: ExactState)
    ensures r.thrusting <==> c.forward || c.backward
    ensures !c.left && !c.right ==> r.rightVelocity == s.rightVelocity
    ensures -101.0 <= s.forwardVelocity <= 101.0 ==> -101.0 <= r.forwardVelocity <= 101.0
    ensures -1.1 <= s.rightVelocity <= 1.1 ==> -1.1 <= r.rightVelocity <= 1.1
  {
    var t0 := false;
    var f0 := s.forwardVelocity;
    var f1 := if c.forward && f0 < 100.0 then f0 + 1.0 else f0;
    var t1 := if c.forward then true else t0;
    var f2 := if c.backward && f1 > -100.0 then f1 - 1.0 else f1;
    var t2 := if c.backward then true else t1;
    var r0 := s.rightVelocity;
    var r1 := if c.left && r0 > -1.0 then r0 - 0.1 else r0;
    var r2 := if c.right && r1 < 1.0 then r1 + 0.1 else r1;
    var f3 := if c.brake && f2 > 0.0 then f2 - 1.0 else f2;
    var f4 := if c.brake && f3 < 0.0 then f3 + 1.0 else f3;
    var f5 := if !t2 && f4 > 0.0 then f4 - 0.25 else f4;
    var f6 := if !t2 && f5 < 0.0 then f5 + 0.25 else f5;
    ExactState(f6, r2, t2)
  }

  /** Any sequence of ticks in source units keeps drive speed within ±101 and steering within
      ±1.1. */
  function ExactRun(s: ExactState, cs: seq<Controls>): (r: ExactState)
    ensures -101.0 <= s.forwardVelocity <= 101.0 ==> -101.0 <= r.forwardVelocity <= 101.0
    ensures -1.1 <= s.rightVelocity <= 1.1 ==> -1.1 <= r.rightVelocity <= 1.1
    decreases |cs|
  {
    if cs == [] then s else ExactRun(ExactStep(s, cs[0]), cs[1..])
  }

  /** Drive speed and steering in source units. */
  function Quarters(v: int): real { v as real / 4.0 }

  function Tenths(r: int): real { r as real / 10.0 }

  /** The source-unit reading of a scaled state. */
  function Unscaled(s: VehicleState): ExactState
  {
    ExactState(Quarters(s.forward4), Tenths(s.right10), s.thrusting)
  }

  // Each statement of the block, scaled, agrees with the same statement in source units.

  lemma ForwardStageExact(v: int, on: bool)
    ensures Quarters(if on then Accelerate(v) else v)
         == if on && Quarters(v) < 100.0 then Quarters(v) + 1.0 else Quarters(v)
  {
  }

  lemma BackwardStageExact(v: int, on: bool)
    ensures Quarters(if on then Reverse(v) else v)
         == if on && Quarters(v) > -100.0 then Quarters(v) - 1.0 else Quarters(v)
  {
  }

  lemma LeftStageExact(r: int, on: bool)
    ensures Tenths(if on then SteerLeft(r) else r)
         == if on && Tenths(r) > -1.0 then Tenths(r) - 0.1 else Tenths(r)
  {
  }

  lemma RightStageExact(r: int, on: bool)
    ensures Tenths(if on then SteerRight(r) else r)
         == if on && Tenths(r) < 1.0 then Tenths(r) + 0.1 else Tenths(r)
  {
  }

  lemma BrakeStageExact(v: int, on: bool)
    ensures var f3 := if on && Quarters(v) > 0.0 then Quarters(v) - 1.0 else Quarters(v);
      Quarters(if on then Brake(v) else v) == if on && f3 < 0.0 then f3 + 1.0 else f3
  {
  }

  lemma CoastStageExact(v: int, on: bool)
    ensures var f5 := if on && Quarters(v) > 0.0 then Quarters(v) - 0.25 else Quarters(v);
      Quarters(if on then Coast(v) else v) == if on && f5 < 0.0 then f5 + 0.25 else f5
  {
  }

  lemma ForwardIsExact(s: VehicleState, c: Controls)
    ensures ExactStep(Unscaled(s), c).forwardVelocity == Quarters(Step(s, c).forward4)
  {
    var v1 := if c.forward then Accelerate(s.forward4) else s.forward4;
    var v2 := if c.backward then Reverse(v1) else v1;
    var v3 := if c.brake then Brake(v2) else v2;
    ForwardStageExact(s.forward4, c.forward);
    BackwardStageExact(v1, c.backward);
    BrakeStageExact(v2, c.brake);
    CoastStageExact(v3, !(c.forward || c.backward));
  }

  lemma SteeringIsExact(s: VehicleState, c: Controls)
    ensures ExactStep(Unscaled(s), c).rightVelocity == Tenths(Step(s, c).right10)
  {
    LeftStageExact(s.right10, c.left);
    RightStageExact(if c.left then SteerLeft(s.right10) else s.right10, c.right);
  }

  /** One scaled tick is exactly one tick in source units. */
  lemma StepIsExact(s: VehicleState, c: Controls)
    ensures ExactStep(Unscaled(s), c) == Unscaled(Step(s, c))
  {
    ForwardIsExact(s, c);
    SteeringIsExact(s, c);
  }

  /** Any sequence of scaled ticks is exactly the same sequence in source units. */
  lemma {:induction false} RunIsExact(s: VehicleState, cs: seq<Controls>)
    ensures ExactRun(Unscaled(s), cs) == Unscaled(Run(s, cs))
    decreases |cs|
  {
    if cs != [] {
      StepIsExact(s, cs[0]);
      RunIsExact(Step(s, cs[0]), cs[1..]);
    }
  }

  /** From rest, after any sequence of ticks the drive speed is a multiple of 0.25 within
      ±100.75, and the steering value (in exact arithmetic) a multiple of 0.1 within ±1. */
  lemma ReachableFromRest(cs: seq<Controls>)
    ensures var e := ExactRun(ExactRest, cs);
      && (4.0 * e.forwardVelocity).Floor as real == 4.0 * e.forwardVelocity
      && -100.75 <= e.forwardVelocity <= 100.75
      && (10.0 * e.rightVelocity).Floor as real == 10.0 * e.rightVelocity
      && -1.0 <= e.rightVelocity <= 1.0
  {
    assert Unscaled(Rest) == ExactRest;
    RunIsExact(Rest, cs);
    var r := Run(Rest, cs);
    assert InRange(r);
    UnitsAreWhole(r.forward4, r.right10);
  }

  /** A whole number of quarters (tenths) is a real whose fourfold (tenfold) is whole. */
  lemma UnitsAreWhole(q: int, t: int)
    ensures (4.0 * Quarters(q)).Floor as real == 4.0 * Quarters(q)
    ensures (10.0 * Tenths(t)).Floor as real == 10.0 * Tenths(t)
  {
    assert 4.0 * Quarters(q) == q as real;
    assert 10.0 * Tenths(t) == t as real;
  }
}
