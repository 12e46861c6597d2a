/** The device input source: each update drains the pending joystick events
    and folds them into the control state. Device axis 1 drives gas/brake,
    axis 2 steering, and button 0 raises cancel. */
module JoystickInput {
  import opened Numeric
  import opened Control
  import Publish

  const AccelAxis: int := 1
  const SteerAxis: int := 2
  const CancelButton: int := 0

  /** Normalised magnitudes at or below this are snapped to exactly zero. */
  const Deadzone: real := 0.05

  /** Publication order of the axes. */
  const AxesOrder: seq<int> := [AccelAxis, SteerAxis]

  const InitialAxes: map<int, real> := map[AccelAxis := 0.0, SteerAxis := 0.0]

  /** A device event as the event queue delivers it. Only axis motion and
      button presses are acted on; releases and every other kind of event
      are passed over. */
  datatype Event =
    | AxisMotion(axis: int, value: real)
    | ButtonDown(button: int)
    | ButtonUp(button: int)
    | OtherEvent

  /** The value stored for a raw axis reading `v`: clipped to [-1, 1] by the
      identity interpolation table, negated, and zero inside the deadzone. */
  function AxisReading(v: real): (r: real)
    ensures InUnitRange(r)
    ensures Abs(Clip(v, -1.0, 1.0)) <= Deadzone ==> r == 0.0
    ensures Abs(Clip(v, -1.0, 1.0)) > Deadzone ==> r == -Clip(v, -1.0, 1.0)
    ensures r == 0.0 || Deadzone < Abs(r)
  {
    InterpUnitIsClip(v);
    var norm := -Interp(v, -1.0, 1.0, -1.0, 1.0);
    if Abs(norm) > Deadzone then norm else 0.0
  }

  /** The axis key set never changes: exactly the two mapped device axes. */
  predicate Keyed(m: map<int, real>) {
    m.Keys == {AccelAxis, SteerAxis}
  }

  /** A joystick control state the source can reach. */
  predicate WellFormed(s: ControlState<int>) {
    Keyed(s.axesValues) && AxesInRange(s.axesValues)
  }

  /** What one event does to the control state. */
  function EventStep(s: ControlState<int>, e: Event): (r: ControlState<int>)
    ensures r.axesValues.Keys == s.axesValues.Keys
    ensures AxesInRange(s.axesValues) ==> AxesInRange(r.axesValues)
    ensures r.cancel <==> s.cancel || e == ButtonDown(CancelButton)
    ensures e.AxisMotion? && e.axis in s.axesValues ==> r.axesValues[e.axis] == AxisReading(e.value)
    ensures forall a :: a in s.axesValues && !(e.AxisMotion? && e.axis == a) ==> r.axesValues[a] == s.axesValues[a]
  {
    match e
    case AxisMotion(axis, value) =>
      if axis in s.axesValues then ControlState(s.axesValues[axis := AxisReading(value)], s.cancel) else s
    case ButtonDown(button) =>
      if button == CancelButton then ControlState(s.axesValues, true) else s
    case _ => s
  }

  /** The state after the events `events`, oldest first. */
  function ApplyEvents(s: ControlState<int>, events: seq<Event>): (r: ControlState<int>)
    ensures r.axesValues.Keys == s.axesValues.Keys
    decreases |events|
  {
    if events == [] then s
    else EventStep(ApplyEvents(s, events[..|events| - 1]), events[|events| - 1])
  }

  /** However many events arrive, every axis stays within [-1, 1]. */
  lemma {:induction false} ApplyEventsInRange(s: ControlState<int>, events: seq<Event>)
    requires WellFormed(s)
    ensures WellFormed(ApplyEvents(s, events))
    decreases |events|
  {
    if events != [] {
      ApplyEventsInRange(s, events[..|events| - 1]);
    }
  }

  /** Cancel ends up set exactly when it already was or some event pressed
      the cancel button: nothing clears it. */
  lemma {:induction false} ApplyEventsCancel(s: ControlState<int>, events: seq<Event>)
    ensures ApplyEvents(s, events).cancel <==> s.cancel || ButtonDown(CancelButton) in events
    decreases |events|
  {
    if events != [] {
      var init := events[..|events| - 1];
      ApplyEventsCancel(s, init);
      assert events == init + [events[|events| - 1]];
    }
  }

  /** An axis that no event moves keeps its value. */
  lemma {:induction false} UnmovedAxisUnchanged(s: ControlState<int>, events: seq<Event>, a: int)
    requires a in s.axesValues
    requires forall i :: 0 <= i < |events| ==> !(events[i].AxisMotion? && events[i].axis == a)
    ensures ApplyEvents(s, events).axesValues[a] == s.axesValues[a]
    decreases |events|
  {
    if events != [] {
      UnmovedAxisUnchanged(s, events[..|events| - 1], a);
    }
  }

  /** A mapped axis holds the reading of the last event that moved it. */
  lemma {:induction false} LastMotionWins(s: ControlState<int>, events: seq<Event>, i: nat, a: int, v: real)
    requires a in s.axesValues
    requires i < |events| && events[i] == AxisMotion(a, v)
    requires forall j :: i < j < |events| ==> !(events[j].AxisMotion? && events[j].axis == a)
    ensures ApplyEvents(s, events).axesValues[a] == AxisReading(v)
    decreases |events|
  {
    if i < |events| - 1 {
      LastMotionWins(s, events[..|events| - 1], i, a, v);
    }
  }

  /** A reading of 0.03 on a mapped axis lies inside the deadzone and is
      stored as exactly zero. */
  lemma SmallMotionSnapsToZero(s: ControlState<int>)
    requires Keyed(s.axesValues)
    ensures ApplyEvents(s, [AxisMotion(AccelAxis, 0.03)]).axesValues[AccelAxis] == 0.0
  {
  }

  /** The device source's mutable state: the two axis values, keyed by
      device axis index, and the cancel flag. */
  class Joystick {
    var axesValues: map<int, real>
    var cancel: bool

    ghost predicate Valid()
      reads this
    {
      WellFormed(State())
    }

    function State(): ControlState<int>
      reads this
    {
      ControlState(axesValues, cancel)
    }

    constructor ()
      ensures Valid()
      ensures axesValues == InitialAxes && !cancel
    {
      axesValues := InitialAxes;
      cancel := false;
    }

    /** Folds the drained event queue `events` into the state; always
        reports success. */
    method Update(events: seq<Event>) returns (ok: bool)
      requires Valid()
      modifies this
      ensures Valid()
      ensures ok
      ensures State() == ApplyEvents(old(State()), events)
      ensures old(cancel) ==> cancel
    {
      var i := 0;
      while i < |events|
        invariant 0 <= i <= |events|
        invariant Valid()
        invariant State() == ApplyEvents(old(State()), events[..i])
      {
        var event := events[i];
        match event {
          case AxisMotion(axis, value) =>
            if axis in axesValues {
              var norm := -Interp(value, -1.0, 1.0, -1.0, 1.0);
              axesValues := axesValues[axis := if Abs(norm) > Deadzone then norm else 0.0];
            }
          case ButtonDown(button) =>
            if button == CancelButton {
              // the source assigns the test "this is a button-down event",
              // which always holds in this branch
              cancel := event.ButtonDown?;
            }
          case _ =>
        }
        assert events[..i + 1][..i] == events[..i];
        i := i + 1;
      }
      assert events[..i] == events;
      ApplyEventsCancel(old(State()), events);
      return true;
    }

    /** The message the publisher loop builds from this source. */
    function Message(): (m: Publish.TestJoystick)
      reads this
      requires Valid()
      ensures m.axes == [axesValues[AccelAxis], axesValues[SteerAxis]]
      ensures m.buttons == [cancel]
      ensures forall i :: 0 <= i < |m.axes| ==> InUnitRange(m.axes[i])
    {
      Publish.Message(State(), AxesOrder)
    }

    /** The two values the web forward sends: steer, then gas/brake. */
    function WebArgs(): (r: seq<real>)
      reads this
      requires Valid()
      ensures r == [axesValues[SteerAxis], axesValues[AccelAxis]]
    {
      Publish.WebArgs(State(), AxesOrder)
    }
  }
}
