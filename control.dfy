/** The control-state shape both input sources share: the current value of
    each axis, keyed by the source's own axis names, plus the cancel flag. */
module Control {

  datatype ControlState<K> = ControlState(axesValues: map<K, real>, cancel: bool)

  /** A value a published axis may take: full reverse to full forward. */
  predicate InUnitRange(x: real) {
    -1.0 <= x <= 1.0
  }

  /** Every axis value lies in [-1, 1]. */
  predicate AxesInRange<K>(m: map<K, real>) {
    forall k :: k in m ==> InUnitRange(m[k])
  }
}
