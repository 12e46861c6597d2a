# Joystick control input — a Dafny model

openpilot's `tools/joystick/gamepad.py` turns manual input into a two-axis
control command plus a cancel flag and publishes it as a `testJoystick`
message. It does this with one of two input sources:

- **Keyboard.** Each keystroke is lower-cased. W/S move the gas/brake axis
  `gb` and A/D move the `steer` axis by ±0.05, clipped to [-1, 1]. R
  re-centres both axes and C raises `cancel`. Every keystroke first clears
  `cancel`, so cancel lasts for one keystroke only.
- **Joystick.** Each update drains the device's event queue. Motion on
  device axis 1 or 2 stores the negated, clipped reading. A reading whose
  magnitude is at most 0.05 (the deadzone) is stored as exactly 0. A press of
  button 0 sets `cancel`, and nothing ever clears it.

Both sources keep the same control state: a map from axis key to value, and
the cancel flag. The keyboard keys its map by axis name (`gb`, `steer`). The
joystick keys it by device axis index (`1`, `2`). Each cycle the publisher
sends the axes in the source's fixed axis order, with `buttons = [cancel]`.
The optional web forward sends the same two axes in reverse order. These are
separate reads of the shared state: the axes at gamepad.py:86, `cancel` at
line 87, and the axes again at line 96. The projections here describe one
state, so all three reads are assumed to see the same one.

Modules, one per component:

- `Numeric` (numeric.dfy): `Abs`, `Clip`, and the two-point `Interp` that
  the tool imports from openpilot's numpy_fast module.
- `Control` (control.dfy): the shared `ControlState` and the range predicate.
- `Publish` (publish.dfy): the message projection and the web-forward
  arguments.
- `KeyboardInput` (keyboard.dfy): the class `Keyboard`, with the
  per-keystroke transition `KeyStep` that specifies it.
- `JoystickInput` (joystick.dfy): the class `Joystick`, with the event
  datatype and the fold `ApplyEvents` that specifies its update loop.

The two classes hold the fields the source mutates (`axesValues`, `cancel`).
Their `Update` methods are proved against the pure transition functions.
The properties about sequences of keystrokes or events are proved as lemmas
about those functions. Axis values are exact `real`s.

Assumptions about code outside `gamepad.py`:

- `interp` is taken to behave like numpy's interp. On a two-point table it is
  constant outside the table and linear inside. `Numeric.InterpUnitIsClip`
  proves that with the table [-1, 1] → [-1, 1] this is clipping to [-1, 1].
- `clip(x, lo, hi)` is taken to be `max(lo, min(x, hi))`.
- `KBHit.getch` is taken to deliver one character. `str.lower` is modelled
  on ASCII letters. No other character lowers to one of r, c, w, s, a, d, so
  the key dispatch is exact.

Three behaviours of `gamepad.py` that the model keeps as written:

- `Joystick.update` returns `True` on every call, whatever the events were
  (gamepad.py:78).
- The sampler thread and the publisher thread share the same `axes_values`
  and `cancel` with no lock between them (gamepad.py:99-107).
- A keystroke that is not recognised still clears `cancel` (gamepad.py:36)
  before `update` returns `False` (gamepad.py:46).

## Model

| member | source | states |
|---|---|---|
| `Numeric.Abs` | tools/joystick/gamepad.py:71 | the magnitude used by the deadzone test is non-negative and equals the value or its negation |
| `Numeric.Clip` | tools/joystick/gamepad.py:44 | the result lies in [lo, hi]; a value already inside is unchanged; values below lo give lo and values above hi give hi |
| `Numeric.Interp` | tools/joystick/gamepad.py:70 | a two-point interpolation gives fp0 at or left of xp0 and fp1 at or right of xp1, and never leaves the range between fp0 and fp1 |
| `Numeric.InterpUnitIsClip` | tools/joystick/gamepad.py:70 | interp with the identity table [-1, 1] → [-1, 1] is clipping to [-1, 1] |
| `Publish.AxesInOrder` | tools/joystick/gamepad.py:86 | the axes list has one entry per name in the axis order, and entry i is the value of the i-th named axis |
| `Publish.Reversed` | tools/joystick/gamepad.py:96 | `[::-1]` keeps the length, and entry i is entry n-1-i of the input |
| `Publish.Message` | tools/joystick/gamepad.py:86-87 | the message's axes are the state's values in axis order (same length, same order), its buttons are exactly `[cancel]`, and in-range state gives in-range axes |
| `Publish.WebArgs` | tools/joystick/gamepad.py:96 | the web-forward arguments are the published axes in reverse order |
| `Publish.WebArgsReverseMessage` | tools/joystick/gamepad.py:86-96 | reading the web-forward arguments back to front gives the published axes |
| `KeyboardInput.Lower` | tools/joystick/gamepad.py:35 | lower-casing leaves no upper-case letter, maps letters to letters and touches nothing else |
| `KeyboardInput.KeyStep` | tools/joystick/gamepad.py:34-47 | one keystroke keeps the key set {gb, steer} and keeps axes in [-1, 1]. It reports handled iff the lower-cased key is one of r, c, w, s, a, d, and sets cancel iff that key is c. R zeroes every axis. W and S set gb to clip(gb ± 0.05) and A and D set steer to clip(steer ± 0.05), leaving the other axis alone. Any other key leaves the axes unchanged |
| `KeyboardInput.RunKeys` | tools/joystick/gamepad.py:103-104 | repeated keyboard updates never change the axis key set |
| `KeyboardInput.RunKeysInRange` | tools/joystick/gamepad.py:30-44 | for every sequence of keystrokes, every axis stays in [-1, 1] and the key set stays {gb, steer} |
| `KeyboardInput.RunKeysCancel` | tools/joystick/gamepad.py:36-40 | after a run of keystrokes, cancel is set iff the last key was C (cancel is a one-keystroke pulse) |
| `KeyboardInput.WwdThenCancel` | tools/joystick/gamepad.py:27-44 | W, W, D from rest gives gb = 0.10, steer = -0.05 and cancel clear; a following C sets cancel and keeps the axes |
| `KeyboardInput.Keyboard.constructor` | tools/joystick/gamepad.py:25-32 | the keyboard starts with both axes at 0 and cancel clear |
| `KeyboardInput.Keyboard.Update` | tools/joystick/gamepad.py:34-47 | one keystroke moves the fields exactly as `KeyStep` says, keeps the invariant (key set {gb, steer}, values in [-1, 1]), and returns handled iff the key is recognised. Cancel ends up set iff the key is c, and an unrecognised key leaves the axes unchanged |
| `KeyboardInput.Keyboard.Message` | tools/joystick/gamepad.py:86-87 | the published message is `[gb, steer]` with buttons `[cancel]`, all axes in [-1, 1] |
| `KeyboardInput.Keyboard.WebArgs` | tools/joystick/gamepad.py:96 | the web forward sends steer, then gb |
| `JoystickInput.AxisReading` | tools/joystick/gamepad.py:70-71 | the stored reading is in [-1, 1]. It is exactly 0 when the clipped raw value has magnitude at most 0.05, and otherwise it is the negated clipped value, so it is never a non-zero value inside the deadzone |
| `JoystickInput.EventStep` | tools/joystick/gamepad.py:67-76 | one event keeps the axis key set and the range. Motion on a mapped axis stores `AxisReading` of its value and leaves every other axis alone. Cancel ends up set iff it was set or the event is a press of button 0 |
| `JoystickInput.ApplyEvents` | tools/joystick/gamepad.py:66-76 | folding a drained event list never changes the axis key set |
| `JoystickInput.ApplyEventsInRange` | tools/joystick/gamepad.py:60-71 | for every event list, the axes stay in [-1, 1] and the key set stays {1, 2} |
| `JoystickInput.ApplyEventsCancel` | tools/joystick/gamepad.py:73-76 | after an event list, cancel is set iff it was already set or the list holds a press of button 0; nothing clears it |
| `JoystickInput.UnmovedAxisUnchanged` | tools/joystick/gamepad.py:67-71 | an axis that no event in the list moves keeps its value; this covers events on unmapped axes and all non-motion events |
| `JoystickInput.LastMotionWins` | tools/joystick/gamepad.py:66-71 | a mapped axis ends up holding the reading of the last motion event on it |
| `JoystickInput.SmallMotionSnapsToZero` | tools/joystick/gamepad.py:70-71 | a reading of 0.03 on a mapped axis is stored as exactly 0 |
| `JoystickInput.Joystick.constructor` | tools/joystick/gamepad.py:56-62 | the joystick starts with axes 1 and 2 at 0 and cancel clear |
| `JoystickInput.Joystick.Update` | tools/joystick/gamepad.py:64-78 | the loop over the drained events leaves the fields equal to `ApplyEvents` of the old state. It keeps the invariant, never clears cancel, and always returns true |
| `JoystickInput.Joystick.Message` | tools/joystick/gamepad.py:86-87 | the published message is `[axis 1, axis 2]` with buttons `[cancel]`, all axes in [-1, 1] |
| `JoystickInput.Joystick.WebArgs` | tools/joystick/gamepad.py:96 | the web forward sends axis 2, then axis 1 |

## Left out

- Threading: the daemon publisher thread and the sampler loop share the state without a lock (gamepad.py:99-107). That is concurrency, and the model covers only the sequential steps each thread takes. The publisher reads the axes and `cancel` separately (gamepad.py:86, 87, 96), so one message and its web forward may mix values from different updates. The model does not capture this.
- Ratekeeper pacing at 100 Hz (gamepad.py:82, 97): timing and sleep, and its source is not part of this model.
- pygame initialisation, the event pump and the device handle (gamepad.py:9, 20, 52-53, 65-66): device I/O. The drained event list is a parameter of `Joystick.Update`. A missing device, which fails construction, is not modelled.
- The unused `gamepad` constructor argument (gamepad.py:51).
- `KBHit.getch` (gamepad.py:26, 35): blocking terminal input. The key is a parameter of `Keyboard.Update`.
- `messaging.pub_sock` and `send`, serialisation with `to_bytes`, the `rich` live display and the `requests.get` call (gamepad.py:81-96): network and UI I/O. Only the message content and the web-forward argument pair are modelled. The `%f` text formatting of the URL is left out too.
- `Params` flags, environment checks and argparse start-up gating (gamepad.py:100, 110-119): external configuration and process exit.
- The `print('Cancel')` on a cancel-button press (gamepad.py:75): console output.
- Floating-point rounding: axis values are exact reals, so repeated ±0.05 steps land on exact multiples of 0.05.
- `Numeric.Interp`: models only two-point tables, the only form the tool calls. numpy_fast is not part of this model.
- `KeyboardInput.Lower`: maps ASCII letters only. Python's full Unicode lower-casing is not modelled, but it does not change which keys are recognised.
