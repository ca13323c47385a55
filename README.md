# Dynamixel controller adapter

A Dafny model of `DynamixelController`, the output device of the joint control
framework that drives one Dynamixel smart servo in wheel mode over a serial
bus through the RoveDynamixel driver. The adapter does three things:

- The constructor stores the transmit and receive pins, the baud rate and the
  mounting orientation. It derives the input tag `inType` from the servo mode:
  `Wheel` means speed and `Joint` means position. It then initialises the
  driver record and puts the servo into the requested mode.
- `move(movement)` does nothing while the device is disabled. Otherwise it
  negates the command for a servo mounted upside down and classifies it as
  negative, positive or zero. A negative command is remapped with Energia's
  `map` from `[0, SPEED_MAX]` onto `[DYNA_SPEED_CCW_MAX, DYNA_SPEED_CCW_MIN]`.
  A positive one is remapped onto `[DYNA_SPEED_CW_MAX, DYNA_SPEED_CW_MIN]`.
  A zero command becomes a literal 0. The result is stored in a `uint16_t` and
  sent with `DynamixelSpinWheel`.
- `togglePower(powerOn)` calls `move(0)` first when switching off, while the
  old enable flag still applies, and then sets `enabled`.

Files:

- `c_int.dfy`, module `CInt`: the fixed-width types and two rules of C
  arithmetic. Signed `/` truncates toward zero (`CDiv`, specified by its
  remainder). Storing into `uint16_t` reduces modulo 2^16 (`ToUint16`).
- `energia.dfy`, module `Energia`: Energia's `map`, the formula
  `(x - in_min) * (out_max - out_min) / (in_max - in_min) + out_min` evaluated
  in `long` arithmetic. Lemmas cover its endpoints, its monotonicity for either
  orientation of the output range, and its range inside the input interval.
  They also cover its reflection for negative inputs when the input interval
  starts at 0.
- `dynamixel_controller.dfy`, module `JointControlFramework`:
  - `SpinCommand` is the value `move` sends when enabled, and the lemmas
    about it follow it.
  - The class `DynamixelController` has the source's fields. Its ghost
    `sent` is the ordered trace of every value passed to `DynamixelSpinWheel`.
  - `Sends` and `EnabledAfter` give the semantics of a whole sequence of
    `move` and `togglePower` calls: the adapter's two-state machine, with
    the trace of values it sends. `Perform` proves that the object follows
    them for any sequence.
  - `NeverEnabledIgnoresCalls` builds a disabled controller and runs any
    call sequence without `togglePower(true)` on it through `Perform`: nothing
    is sent. `EnableMoveDisableTwice` switches a controller on, moves it and
    switches it off twice: the command and a single stop are sent.

The remap is kept exactly as the source writes it. Negative commands are
remapped over the domain `[0, SPEED_MAX]` as well. `ReverseCommand` states
where they land: at the mirror image, across `DYNA_SPEED_CCW_MAX`, of where
their magnitude would land. That is on the far side of `DYNA_SPEED_CCW_MAX`
from `DYNA_SPEED_CCW_MIN`, meeting the counter-clockwise range only at
`DYNA_SPEED_CCW_MAX` itself.

The constants `SPEED_MAX` and `DYNA_SPEED_*` are defined in headers that are
not part of this model, so they are the `SpeedLimits` parameter of the
constructor. `SPEED_MAX` must be positive because it is the divisor of the
remap. The state the `OutputDevice` base constructor leaves behind is also not
part of this model, so its `enabled` and `inType` values are the parameters
`baseEnabled` and `baseInType`.

`togglePower(false)` sends its stop through `move(0)`, and `move` drops it
when the device is already disabled, so a second switch-off sends nothing
(`EnableMoveDisableTwice`).

## Model

| member | source | states |
|---|---|---|
| CInt.CDiv | libraries/JointControlFramework/DynamixelController.cpp:58 | the division inside `map` is C's signed division: the remainder is smaller than the divisor in magnitude and is zero or has the dividend's sign (truncation toward zero) |
| CInt.ToUint16 | libraries/JointControlFramework/DynamixelController.cpp:44 | storing the `long` result of `map` into `uint16_t send` keeps a value congruent modulo 2^16, and keeps any value already in `0..65535` unchanged |
| CInt.CDivNegate | libraries/JointControlFramework/DynamixelController.cpp:58 | truncating division is odd: negating the dividend negates the quotient |
| CInt.CDivMultiple | libraries/JointControlFramework/DynamixelController.cpp:58 | dividing an exact multiple `k * d` by a positive `d` gives `k` |
| CInt.CDivMonotone | libraries/JointControlFramework/DynamixelController.cpp:58 | for a positive divisor the truncated quotient is monotone in the dividend |
| Energia.Map | libraries/JointControlFramework/DynamixelController.cpp:58-68 | Energia's `map` as called at both remap sites: the result is the value at `x` of the line through `(in_min, out_min)` and `(in_max, out_max)`, rounded toward `out_min` by less than one output unit: the rounding error is zero or has the sign of the offset from `out_min`, because the division truncates. This fixes the result uniquely |
| Energia.MapEndpoints | libraries/JointControlFramework/DynamixelController.cpp:58 | `map` sends `in_min` to `out_min` and `in_max` to `out_max`, whichever way round the output range is written |
| Energia.MapMonotone | libraries/JointControlFramework/DynamixelController.cpp:68 | `map` is nondecreasing for a low-to-high output range and nonincreasing for a reversed one |
| Energia.MapWithinRange | libraries/JointControlFramework/DynamixelController.cpp:68 | for an input inside `[in_min, in_max]` the result lies between `out_min` and `out_max` |
| Energia.MapReflect | libraries/JointControlFramework/DynamixelController.cpp:56-58 | with `in_min == 0`, `map(-x)` equals `2 * out_min - map(x)`: a negative input is reflected across `out_min` |
| JointControlFramework.SpinCommand | libraries/JointControlFramework/DynamixelController.cpp:43-80 | defines the value `move` sends when enabled: invert, three-way branch, remap and narrowing. Its contract states that a zero command sends the literal 0, whatever the orientation |
| JointControlFramework.InvertNegates | libraries/JointControlFramework/DynamixelController.cpp:49-53 | on an inverted servo the value sent for `movement` is the value a normal servo sends for `-movement` |
| JointControlFramework.ForwardCommand | libraries/JointControlFramework/DynamixelController.cpp:66-72 | a positive command sends `map(mov, 0, SPEED_MAX, CW_MAX, CW_MIN)` reduced to 16 bits. Up to `SPEED_MAX` it lies between the clockwise limits and is exactly `CW_MIN` at `SPEED_MAX`. With no clamping it reaches or passes `CW_MIN` above `SPEED_MAX`. Up to `SPEED_MAX` it is sent unreduced when the limits fit in 16 bits |
| JointControlFramework.ReverseCommand | libraries/JointControlFramework/DynamixelController.cpp:56-62 | a negative command sends `map(mov, 0, SPEED_MAX, CCW_MAX, CCW_MIN)` reduced to 16 bits. The unreduced `map` value is `2 * CCW_MAX - map(-mov, ...)`. For `-SPEED_MAX <= mov < 0` the unreduced value lies between `CCW_MAX` and `2 * CCW_MAX - CCW_MIN`, on the far side of `CCW_MAX` from `CCW_MIN`, so it meets the counter-clockwise range only at `CCW_MAX`, and reaches `2 * CCW_MAX - CCW_MIN` at `-SPEED_MAX` |
| JointControlFramework.InvertedForwardCommand | libraries/JointControlFramework/DynamixelController.cpp:49-62 | on an inverted servo a positive command such as `move(50)` takes the reverse branch and sends `2 * CCW_MAX - map(50, 0, SPEED_MAX, CCW_MAX, CCW_MIN)` reduced to 16 bits |
| JointControlFramework.DynamixelController.constructor | libraries/JointControlFramework/DynamixelController.cpp:15-35 | pins, baud rate and orientation are stored. `Wheel` gives `inType == Spd`, `Joint` gives `Pos`, and any other mode leaves the base value. The driver record holds type, id, UART index and baud, the servo is in `mode`, and nothing has been sent |
| JointControlFramework.DynamixelController.SpinWheel | libraries/JointControlFramework/DynamixelController.cpp:62 | one `DynamixelSpinWheel` call appends its speed to the trace; the error code is dropped |
| JointControlFramework.DynamixelController.Move | libraries/JointControlFramework/DynamixelController.cpp:39-84 | disabled: nothing is sent. Enabled: exactly one value, `SpinCommand(limits, invert, movement)`, is appended. No field changes |
| JointControlFramework.DynamixelController.TogglePower | libraries/JointControlFramework/DynamixelController.cpp:87-95 | afterwards `enabled == powerOn`. Switching off sends one 0 if the device was enabled and nothing otherwise. Switching on sends nothing. No other field changes |
| JointControlFramework.CallSends | libraries/JointControlFramework/DynamixelController.cpp:46-95 | what one call sends: a move its `SpinCommand` only while enabled, a switch-off a 0 only from the enabled state; never more than one value, and nothing at all while disabled |
| JointControlFramework.EnabledAfter | libraries/JointControlFramework/DynamixelController.cpp:87-95 | defines the flag after a call sequence: it is the argument of the last `togglePower` call, or the starting flag when the sequence has only moves; in any case the starting flag or the argument of one of its `togglePower` calls |
| JointControlFramework.Sends | libraries/JointControlFramework/DynamixelController.cpp:39-95 | defines the ordered trace a call sequence sends, call by call; each `move` or `togglePower` call sends at most one value |
| JointControlFramework.SendsAppend | libraries/JointControlFramework/DynamixelController.cpp:39-95 | the trace of two call sequences run one after the other is the first one's trace followed by the second one's, started from the enable flag the first leaves |
| JointControlFramework.EnabledAfterAppend | libraries/JointControlFramework/DynamixelController.cpp:87-95 | the flag after two call sequences is the flag the second leaves, started from the flag the first leaves |
| JointControlFramework.EnabledMovesSendOneEach | libraries/JointControlFramework/DynamixelController.cpp:46-82 | on an enabled controller a run of moves sends exactly one value per move, the i-th being the `SpinCommand` of the i-th move, and leaves it enabled |
| JointControlFramework.DisabledSendsNothing | libraries/JointControlFramework/DynamixelController.cpp:46-95 | a disabled controller that is never switched on sends nothing, whatever moves and switch-offs it receives, and stays disabled |
| JointControlFramework.Perform | libraries/JointControlFramework/DynamixelController.cpp:39-95 | issuing any sequence of calls on the object leaves `enabled` and the trace exactly as `EnabledAfter` and `Sends` describe |
| JointControlFramework.NeverEnabledIgnoresCalls | libraries/JointControlFramework/DynamixelController.cpp:46-95 | a controller built disabled, given any call sequence without `togglePower(true)` and run on the object, sends nothing and stays disabled |
| JointControlFramework.EnableMoveDisableTwice | libraries/JointControlFramework/DynamixelController.cpp:87-95 | switch on, move, switch off, switch off sends the command and one stop, in that order, and leaves the device disabled |

## Left out

- Energia.Map: computes over unbounded integers, so the overflow of `map`'s product and sums in 32-bit `long` arithmetic, undefined behaviour in C, is not modelled.
- JointControlFramework.DynamixelController.Move: takes `movement` as an unbounded integer, so the undefined negation of the most negative 32-bit `long` on an inverted servo is not modelled.
- The RoveDynamixel driver is not part of this model. The driver calls are foreign bus I/O: `DynamixelInit` is modelled as the record it fills in, `DynamixelSetMode` as the ghost `driverMode`, and `DynamixelSpinWheel` as an append to the ghost trace `sent`.
- The error code that `DynamixelSpinWheel` returns is not modelled. The source stores it in `errorMessageIgnore` and never reads it.
- The numeric values of `SPEED_MAX` and the `DYNA_SPEED_*` constants are not fixed. Their headers are not part of this model, so they are a parameter.
- The defaults of `enabled` and `inType` set by `OutputDevice` are not fixed. `OutputDevice` is not part of this model, so they are parameters.
- The enumerators of `DynamixelType` and of the other `DynamixelMode` values are not listed. They are defined in the driver's header, so they are opaque codes.
- Energia's pin numbering is not interpreted. `Tx` and `Rx` are opaque integers stored unchanged.
- Motion in position (`Joint`) mode is not modelled, because `move` has no such branch.
- Concurrency, timing and the servo's physical behaviour are not modelled.
