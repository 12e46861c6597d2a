/** The keyboard input source: one keystroke at a time nudges the
    gas/brake axis ("gb") with W/S and the steering axis ("steer") with A/D,
    R re-centres both axes and C raises cancel for that one keystroke. */
module KeyboardInput {
  import opened Numeric
  import opened Control
  import Publish

  /** Step per key press: 5% of full actuation. */
  const AxisIncrement: real := 0.05

  /** Which axis each movement key drives. */
  const AxesMap: map<char, string> := map['w' := "gb", 's' := "gb", 'a' := "steer", 'd' := "steer"]

  /** Publication order of the axes. */
  const AxesOrder: seq<string> := ["gb", "steer"]

  const InitialAxes: map<string, real> := map["gb" := 0.0, "steer" := 0.0]

  /** The keys `Update` acts on, after lower-casing. */
  const Handled: set<char> := {'r', 'c', 'w', 's', 'a', 'd'}

  /** str.lower on one character. Only ASCII letters are mapped: no other
      character lowers to one of the keys in `Handled`. */
  function Lower(c: char): (r: char)
    ensures !('A' <= r <= 'Z')
    ensures 'a' <= r <= 'z' <==> 'a' <= c <= 'z' || 'A' <= c <= 'Z'
    ensures !('A' <= c <= 'Z') ==> r == c
    ensures r == c || r as int == c as int + 32
  {
    if 'A' <= c <= 'Z' then (c as int + 32) as char else c
  }

  /** The axis key set never changes: exactly the two keyboard axes. */
  predicate Keyed(m: map<string, real>) {
    m.Keys == {"gb", "steer"}
  }

  /** A keyboard control state the source can reach. */
  predicate WellFormed(s: ControlState<string>) {
    Keyed(s.axesValues) && AxesInRange(s.axesValues)
  }

  datatype KeyResult = KeyResult(state: ControlState<string>, handled: bool)

  /** What one keystroke does to the control state, and whether the key was
      one the keyboard source acts on. */
  function KeyStep(s: ControlState<string>, key: char): (r: KeyResult)
    requires Keyed(s.axesValues)
    ensures Keyed(r.state.axesValues)
    ensures WellFormed(s) ==> WellFormed(r.state)
    ensures r.handled <==> Lower(key) in Handled
    ensures r.state.cancel <==> Lower(key) == 'c'
    ensures Lower(key) == 'r' ==> r.state.axesValues == InitialAxes
    ensures Lower(key) == 'w' ==> r.state.axesValues == s.axesValues["gb" := Clip(s.axesValues["gb"] + 0.05, -1.0, 1.0)]
    ensures Lower(key) == 's' ==> r.state.axesValues == s.axesValues["gb" := Clip(s.axesValues["gb"] - 0.05, -1.0, 1.0)]
    ensures Lower(key) == 'a' ==> r.state.axesValues == s.axesValues["steer" := Clip(s.axesValues["steer"] + 0.05, -1.0, 1.0)]
    ensures Lower(key) == 'd' ==> r.state.axesValues == s.axesValues["steer" := Clip(s.axesValues["steer"] - 0.05, -1.0, 1.0)]
    ensures Lower(key) !in {'r', 'w', 's', 'a', 'd'} ==> r.state.axesValues == s.axesValues
  {
    var k := Lower(key);
    if k == 'r' then
      KeyResult(ControlState(map ax | ax in s.axesValues :: 0.0, false), true)
    else if k == 'c' then
      KeyResult(ControlState(s.axesValues, true), true)
    else if k in AxesMap then
      var axis := AxesMap[k];
      var incr := if k in {'w', 'a'} then AxisIncrement else -AxisIncrement;
      KeyResult(ControlState(s.axesValues[axis := Clip(s.axesValues[axis] + incr, -1.0, 1.0)], false), true)
    else
      KeyResult(ControlState(s.axesValues, false), false)
  }

  /** The state after the keystrokes `keys`, first to last. */
  function RunKeys(s: ControlState<string>, keys: seq<char>): (r: ControlState<string>)
    requires Keyed(s.axesValues)
    ensures Keyed(r.axesValues)
    decreases keys
  {
    if keys == [] then s else RunKeys(KeyStep(s, keys[0]).state, keys[1..])
  }

  /** Whatever keys arrive, every axis stays within [-1, 1]. */
  lemma {:induction false} RunKeysInRange(s: ControlState<string>, keys: seq<char>)
    requires WellFormed(s)
    ensures WellFormed(RunKeys(s, keys))
    decreases keys
  {
    if keys != [] {
      RunKeysInRange(KeyStep(s, keys[0]).state, keys[1..]);
    }
  }

  /** Cancel is a pulse: after a run of keys it is set exactly when the
      last key was C. */
  lemma {:induction false} RunKeysCancel(s: ControlState<string>, keys: seq<char>)
    requires Keyed(s.axesValues)
    requires keys != []
    ensures RunKeys(s, keys).cancel <==> Lower(keys[|keys| - 1]) == 'c'
    decreases keys
  {
    if |keys| > 1 {
      RunKeysCancel(KeyStep(s, keys[0]).state, keys[1..]);
    }
  }

  /** W, W, D from rest leaves gb at 0.10 and steer at -0.05 with cancel
      clear; a following C raises cancel and keeps the axes. */
  lemma WwdThenCancel()
    ensures RunKeys(ControlState(InitialAxes, false), ['w', 'w', 'd'])
         == ControlState(map["gb" := 0.10, "steer" := -0.05], false)
    ensures RunKeys(ControlState(InitialAxes, false), ['w', 'w', 'd', 'c'])
         == ControlState(map["gb" := 0.10, "steer" := -0.05], true)
  {
  }

  /** The keyboard source's mutable state: the two axis values and the
      cancel flag. */
  class Keyboard {
    var axesValues: map<string, real>
    var cancel: bool

    ghost predicate Valid()
      reads this
    {
      WellFormed(State())
    }

    function State(): ControlState<string>
      reads this
    {
      ControlState(axesValues, cancel)
    }

    constructor ()
      ensures Valid()
      ensures axesValues == InitialAxes && !cancel
    {
      axesValues := InitialAxes;
      cancel := false;
    }

    /** Handles one keystroke `key` (the character the terminal delivered)
        and reports whether it was a key the source acts on. */
    method Update(key: char) returns (handled: bool)
      requires Valid()
      modifies this
      ensures Valid()
      ensures KeyResult(State(), handled) == KeyStep(old(State()), key)
      ensures handled <==> Lower(key) in Handled
      ensures cancel <==> Lower(key) == 'c'
      ensures !handled ==> axesValues == old(axesValues)
    {
      var k := Lower(key);
      cancel := false;
      if k == 'r' {
        axesValues := map ax | ax in axesValues :: 0.0;
      } else if k == 'c' {
        cancel := true;
      } else if k in AxesMap {
        var axis := AxesMap[k];
        var incr := if k in {'w', 'a'} then AxisIncrement else -AxisIncrement;
        axesValues := axesValues[axis := Clip(axesValues[axis] + incr, -1.0, 1.0)];
      } else {
        return false;
      }
      return true;
    }

    /** The message the publisher loop builds from this source. */
    function Message(): (m: Publish.TestJoystick)
      reads this
      requires Valid()
      ensures m.axes == [axesValues["gb"], axesValues["steer"]]
      ensures m.buttons == [cancel]
      ensures forall i :: 0 <= i < |m.axes| ==> InUnitRange(m.axes[i])
    {
      Publish.Message(State(), AxesOrder)
    }

    /** The two values the web forward sends: steer, then gb. */
    function WebArgs(): (r: seq<real>)
      reads this
      requires Valid()
      ensures r == [axesValues["steer"], axesValues["gb"]]
    {
      Publish.WebArgs(State(), AxesOrder)
    }
  }
}
