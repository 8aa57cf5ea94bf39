/** The latched key-state table that keyboard events write and the frame tick reads. */
module Keyboard {

  /** A DOM keyboard event as the listener sees it: its type ("keydown" or "keyup") and its key code. */
  datatype KeyboardEvent = KeyboardEvent(kind: string, code: string)

  /** Whether a key code reads as held. A code that never had an event is `undefined` in the
      table, which the source's `if` treats as false. */
  predicate Held(keys: map<string, bool>, code: string)
  {
    code in keys && keys[code]
  }

  /** The table after one event for `code`: that entry becomes `isDown`, every other entry keeps
      its value and no other entry appears. */
  function Latch(keys: map<string, bool>, code: string, isDown: bool): (r: map<string, bool>)
    ensures code in r && r[code] == isDown
    ensures Held(r, code) <==> isDown
    ensures r.Keys == keys.Keys + {code}
    ensures forall c :: c in keys && c != code ==> r[c] == keys[c]
    ensures forall c :: c != code ==> (Held(r, c) <==> Held(keys, c))
  {
    keys[code := isDown]
  }

  /** The five driving inputs the tick consults. */
  datatype Controls = Controls(forward: bool, backward: bool, left: bool, right: bool, brake: bool)

  const Idle := Controls(false, false, false, false, false)
  const ForwardOnly := Controls(true, false, false, false, false)
  const BrakeOnly := Controls(false, false, false, false, true)

  /** The inputs read from the table at the start of a tick: W or ArrowUp drives forward,
      S or ArrowDown backward, A or ArrowLeft steers left, D or ArrowRight steers right,
      Space brakes. A code with no event yet reads as not held, so an empty table, or one
      where every key has been released, reads as no input at all. */
  function Sample(keys: map<string, bool>): (r: Controls)
    ensures r.forward <==> Held(keys, "KeyW") || Held(keys, "ArrowUp")
    ensures r.backward <==> Held(keys, "KeyS") || Held(keys, "ArrowDown")
    ensures r.left <==> Held(keys, "KeyA") || Held(keys, "ArrowLeft")
    ensures r.right <==> Held(keys, "KeyD") || Held(keys, "ArrowRight")
    ensures r.brake <==> Held(keys, "Space")
    ensures (forall c :: c in keys ==> !keys[c]) ==> r == Idle
  {
    Controls(
      forward := Held(keys, "KeyW") || Held(keys, "ArrowUp"),
      backward := Held(keys, "KeyS") || Held(keys, "ArrowDown"),
      left := Held(keys, "KeyA") || Held(keys, "ArrowLeft"),
      right := Held(keys, "KeyD") || Held(keys, "ArrowRight"),
      brake := Held(keys, "Space"))
  }

  /** An event for a key the controller does not read leaves the sampled inputs as they were. */
  lemma OtherKeysIgnored(keys: map<string, bool>, code: string, isDown: bool)
    requires code !in {"KeyW", "ArrowUp", "KeyS", "ArrowDown", "KeyA", "ArrowLeft", "KeyD", "ArrowRight", "Space"}
    ensures Sample(Latch(keys, code, isDown)) == Sample(keys)
  {
  }

  /** On any table, a Space event sets the brake input to whether it was a keydown and leaves
      the other four inputs as they were. */
  lemma SpaceLatchesBrake(keys: map<string, bool>, isDown: bool)
    ensures Sample(Latch(keys, "Space", isDown)).brake == isDown
    ensures Sample(Latch(keys, "Space", isDown)) == Sample(keys).(brake := isDown)
  {
  }
}
