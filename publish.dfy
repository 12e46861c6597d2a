/** The outgoing testJoystick record that the publisher loop builds from a
    control state once per cycle, and the argument pair of the optional web
    forward. */
module Publish {
  import opened Control

  /** The logical content of one published message. */
  datatype TestJoystick = TestJoystick(axes: seq<real>, buttons: seq<bool>)

  /** The axis values read in the order `order` names them, one per name. */
  function AxesInOrder<K>(values: map<K, real>, order: seq<K>): (r: seq<real>)
    requires forall k :: k in order ==> k in values
    ensures |r| == |order|
    ensures forall i :: 0 <= i < |order| ==> r[i] == values[order[i]]
  {
    if order == [] then []
    else [values[order[0]]] + AxesInOrder(values, order[1..])
  }

  /** A sequence read back to front, as Python's `[::-1]`. */
  function Reversed<T>(s: seq<T>): (r: seq<T>)
    ensures |r| == |s|
    ensures forall i :: 0 <= i < |s| ==> r[i] == s[|s| - 1 - i]
  {
    if s == [] then []
    else Reversed(s[1..]) + [s[0]]
  }

  /** The message for state `s`: its axes in `order`, and the cancel flag as
      the one button. */
  function Message<K>(s: ControlState<K>, order: seq<K>): (m: TestJoystick)
    requires forall k :: k in order ==> k in s.axesValues
    ensures |m.axes| == |order|
    ensures forall i :: 0 <= i < |order| ==> m.axes[i] == s.axesValues[order[i]]
    ensures m.buttons == [s.cancel]
    ensures AxesInRange(s.axesValues) ==> forall i :: 0 <= i < |m.axes| ==> InUnitRange(m.axes[i])
  {
    TestJoystick(AxesInOrder(s.axesValues, order), [s.cancel])
  }

  /** The values the web forward formats into its URL: the published axes
      in reverse order. */
  function WebArgs<K>(s: ControlState<K>, order: seq<K>): (r: seq<real>)
    requires forall k :: k in order ==> k in s.axesValues
    ensures |r| == |order|
    ensures forall i :: 0 <= i < |order| ==> r[i] == s.axesValues[order[|order| - 1 - i]]
  {
    Reversed(AxesInOrder(s.axesValues, order))
  }

  /** Reading the web arguments back to front gives the published axes. */
  lemma WebArgsReverseMessage<K>(s: ControlState<K>, order: seq<K>)
    requires forall k :: k in order ==> k in s.axesValues
    ensures Reversed(WebArgs(s, order)) == Message(s, order).axes
  {
  }
}
