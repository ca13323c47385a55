/** The joint control framework's adapter for a Dynamixel smart servo driven
    in wheel mode. The adapter stores its configuration, turns a signed speed
    command into the servo's 16-bit wheel-speed value and hands it to the
    RoveDynamixel driver, and can be switched off, in which case it sends
    nothing. The driver itself is not modelled: each DynamixelSpinWheel call
    is recorded in the ghost trace `sent`. */
module JointControlFramework {
  import opened CInt
  import opened Energia

  /** DynamixelMode: the servo's operating mode. Wheel (continuous rotation)
      and Joint (position control) are the two the adapter recognises; any
      other mode of the driver is represented by its code. */
  datatype DynamixelMode = Wheel | Joint | OtherMode(code: int)

  /** The framework's tag for how an output device reads its input:
      as a speed or as a position. */
  datatype ValueType = Spd | Pos

  /** DynamixelType: the servo model (AX, MX, ...), an opaque tag passed to the driver. */
  datatype DynamixelType = DynamixelType(code: int)

  /** The driver record DynamixelInit fills in from its arguments. */
  datatype DriverHandle = DriverHandle(dynaType: DynamixelType, id: uint8, uartIndex: uint8, baud: uint32)

  type PositiveInt = x: int | 0 < x witness 1

  /** The build-time constants of the speed scale: SPEED_MAX, the top of the
      framework's logical speed range, and the servo register values
      DYNA_SPEED_CW_MAX, DYNA_SPEED_CW_MIN, DYNA_SPEED_CCW_MAX and
      DYNA_SPEED_CCW_MIN. Their values are not fixed here; SPEED_MAX is the
      divisor of the remap and so has to be positive. */
  datatype SpeedLimits = SpeedLimits(speedMax: PositiveInt, cwMax: int, cwMin: int, ccwMax: int, ccwMin: int)

  /** The value `move` sends to DynamixelSpinWheel when the controller is
      enabled: the command, negated for a servo mounted upside down, is
      remapped from [0, SPEED_MAX] onto the counter-clockwise register range
      when negative and onto the clockwise one when positive (both with the
      endpoints reversed), and is 0 when zero. */
  function SpinCommand(limits: SpeedLimits, invert: bool, movement: int): (r: uint16)
    ensures movement == 0 ==> r == 0
  {
    var mov := if invert then -movement else movement;
    if mov < 0 then
      ToUint16(Map(mov, 0, limits.speedMax, limits.ccwMax, limits.ccwMin))
    else if mov > 0 then
      ToUint16(Map(mov, 0, limits.speedMax, limits.cwMax, limits.cwMin))
    else
      0
  }

  /** Mounting the servo upside down is the same as negating every command. */
  lemma InvertNegates(limits: SpeedLimits, movement: int)
    ensures SpinCommand(limits, true, movement) == SpinCommand(limits, false, -movement)
  {
  }

  /** A positive command, as the remap sees it, goes to the clockwise
      register range: the remap runs from DYNA_SPEED_CW_MAX at 0 to
      DYNA_SPEED_CW_MIN at SPEED_MAX, stays between the two up to SPEED_MAX,
      and since nothing clamps the command, reaches or passes
      DYNA_SPEED_CW_MIN beyond it. Up to SPEED_MAX, when the register range
      fits in 16 bits, the value sent is the remapped value itself. */
  lemma ForwardCommand(limits: SpeedLimits, movement: int)
    requires movement > 0
    ensures SpinCommand(limits, false, movement)
            == ToUint16(Map(movement, 0, limits.speedMax, limits.cwMax, limits.cwMin))
    ensures movement <= limits.speedMax ==>
              Min(limits.cwMin, limits.cwMax)
              <= Map(movement, 0, limits.speedMax, limits.cwMax, limits.cwMin)
              <= Max(limits.cwMin, limits.cwMax)
    ensures movement == limits.speedMax ==> SpinCommand(limits, false, movement) == ToUint16(limits.cwMin)
    ensures movement >= limits.speedMax && limits.cwMin <= limits.cwMax ==>
              Map(movement, 0, limits.speedMax, limits.cwMax, limits.cwMin) <= limits.cwMin
    ensures movement >= limits.speedMax && limits.cwMax <= limits.cwMin ==>
              limits.cwMin <= Map(movement, 0, limits.speedMax, limits.cwMax, limits.cwMin)
    ensures movement <= limits.speedMax && 0 <= limits.cwMin < 0x1_0000 && 0 <= limits.cwMax < 0x1_0000 ==>
              SpinCommand(limits, false, movement) as int
              == Map(movement, 0, limits.speedMax, limits.cwMax, limits.cwMin)
  {
    var s := limits.speedMax;
    MapEndpoints(0, s, limits.cwMax, limits.cwMin);
    if movement <= s {
      MapWithinRange(movement, 0, s, limits.cwMax, limits.cwMin);
    } else {
      MapMonotone(s, movement, 0, s, limits.cwMax, limits.cwMin);
    }
  }

  /** A negative command, as the remap sees it, is still remapped over the
      domain [0, SPEED_MAX]: it lands at the mirror image, across
      DYNA_SPEED_CCW_MAX, of where its magnitude would land, on the far side
      of DYNA_SPEED_CCW_MAX from DYNA_SPEED_CCW_MIN, so that it meets the
      counter-clockwise range only at DYNA_SPEED_CCW_MAX itself.
      For commands down to -SPEED_MAX the unreduced value therefore lies
      between DYNA_SPEED_CCW_MAX and 2 * DYNA_SPEED_CCW_MAX - DYNA_SPEED_CCW_MIN,
      reaching the latter at -SPEED_MAX. */
  lemma ReverseCommand(limits: SpeedLimits, movement: int)
    requires movement < 0
    ensures SpinCommand(limits, false, movement)
            == ToUint16(Map(movement, 0, limits.speedMax, limits.ccwMax, limits.ccwMin))
    ensures Map(movement, 0, limits.speedMax, limits.ccwMax, limits.ccwMin)
            == 2 * limits.ccwMax - Map(-movement, 0, limits.speedMax, limits.ccwMax, limits.ccwMin)
    ensures -movement <= limits.speedMax && limits.ccwMin <= limits.ccwMax ==>
              limits.ccwMax
              <= Map(movement, 0, limits.speedMax, limits.ccwMax, limits.ccwMin)
              <= 2 * limits.ccwMax - limits.ccwMin
    ensures -movement <= limits.speedMax && limits.ccwMax <= limits.ccwMin ==>
              2 * limits.ccwMax - limits.ccwMin
              <= Map(movement, 0, limits.speedMax, limits.ccwMax, limits.ccwMin)
              <= limits.ccwMax
    ensures -movement == limits.speedMax ==>
              SpinCommand(limits, false, movement) == ToUint16(2 * limits.ccwMax - limits.ccwMin)
  {
    var s := limits.speedMax;
    MapReflect(-movement, s, limits.ccwMax, limits.ccwMin);
    MapEndpoints(0, s, limits.ccwMax, limits.ccwMin);
    if -movement <= s {
      MapWithinRange(-movement, 0, s, limits.ccwMax, limits.ccwMin);
    }
  }

  /** On a servo mounted upside down a positive command takes the reverse
      branch: move(50) sends the reflection of the counter-clockwise remap of 50. */
  lemma InvertedForwardCommand(limits: SpeedLimits, movement: int)
    requires movement > 0
    ensures SpinCommand(limits, true, movement)
            == ToUint16(2 * limits.ccwMax - Map(movement, 0, limits.speedMax, limits.ccwMax, limits.ccwMin))
  {
    InvertNegates(limits, movement);
    ReverseCommand(limits, -movement);
  }

  /** DynamixelController: the adapter object. Its configuration is set once
      by the constructor; `enabled` is changed only by TogglePower; `sent`
      lists, in order, every speed value handed to DynamixelSpinWheel. */
  class DynamixelController {
    const limits: SpeedLimits
    var txPin: int
    var rxPin: int
    var baudRate: uint32
    var invert: bool
    var inType: ValueType
    var enabled: bool
    var dynamixel: DriverHandle
    ghost var driverMode: DynamixelMode
    ghost var sent: seq<uint16>

    /** Stores the pins, baud rate and orientation, derives inType from the
        mode (Wheel reads speeds, Joint reads positions, any other mode keeps
        what the OutputDevice base constructor left, `baseInType`), initialises
        the driver record and puts the servo into `mode`. `baseEnabled` is the
        enable flag as the base constructor leaves it. */
    constructor (tx: int, rx: int, upsideDown: bool, dynaType: DynamixelType, id: uint8,
                 uartIndex: uint8, baud: uint32, mode: DynamixelMode,
                 limits: SpeedLimits, baseEnabled: bool, baseInType: ValueType)
      ensures this.limits == limits
      ensures txPin == tx && rxPin == rx && baudRate == baud && invert == upsideDown
      ensures mode == Wheel ==> inType == Spd
      ensures mode == Joint ==> inType == Pos
      ensures mode.OtherMode? ==> inType == baseInType
      ensures enabled == baseEnabled
      ensures dynamixel == DriverHandle(dynaType, id, uartIndex, baud)
      ensures driverMode == mode
      ensures sent == []
    {
      this.limits := limits;
      enabled := baseEnabled;
      inType := baseInType;
      txPin := tx;
      rxPin := rx;
      baudRate := baud;
      invert := upsideDown;
      if mode == Wheel {
        inType := Spd;
      } else if mode == Joint {
        inType := Pos;
      }
      dynamixel := DriverHandle(dynaType, id, uartIndex, baud);
      driverMode := mode;
      sent := [];
    }

    /** DynamixelSpinWheel(dynamixel, speed): one wheel-speed command on the
        bus. The driver's error code is discarded by every caller. */
    method SpinWheel(speed: uint16)
      modifies this`sent
      ensures sent == old(sent) + [speed]
    {
      sent := sent + [speed];
    }

    /** move: when disabled nothing is sent; when enabled exactly one value,
        SpinCommand of the command, is sent. No field changes. */
    method Move(movement: int)
      modifies this`sent
      ensures !enabled ==> sent == old(sent)
      ensures enabled ==> sent == old(sent) + [SpinCommand(limits, invert, movement)]
      ensures enabled == old(enabled) && invert == old(invert) && inType == old(inType)
      ensures txPin == old(txPin) && rxPin == old(rxPin) && baudRate == old(baudRate)
      ensures dynamixel == old(dynamixel) && driverMode == old(driverMode)
    {
      var mov := movement;
      if enabled {
        if invert {
          mov := -mov;
        }
        if mov < 0 {
          var send := ToUint16(Map(mov, 0, limits.speedMax, limits.ccwMax, limits.ccwMin));
          SpinWheel(send);
        } else if mov > 0 {
          var send := ToUint16(Map(mov, 0, limits.speedMax, limits.cwMax, limits.cwMin));
          SpinWheel(send);
        } else if mov == 0 {
          SpinWheel(0);
        }
      }
    }

    /** togglePower: afterwards `enabled == powerOn`. Switching off first
        calls move(0) under the old flag, so a stop (0) is sent exactly when
        the controller was enabled; switching on sends nothing. */
    method TogglePower(powerOn: bool)
      modifies this`enabled, this`sent
      ensures enabled == powerOn
      ensures !powerOn && old(enabled) ==> sent == old(sent) + [0]
      ensures powerOn || !old(enabled) ==> sent == old(sent)
      ensures invert == old(invert) && inType == old(inType)
      ensures txPin == old(txPin) && rxPin == old(rxPin) && baudRate == old(baudRate)
      ensures dynamixel == old(dynamixel) && driverMode == old(driverMode)
    {
      if powerOn == false {
        Move(0);
      }
      enabled := powerOn;
    }
  }

  /** One call a client of the controller can make. */
  datatype Call = MoveCall(movement: int) | TogglePowerCall(powerOn: bool)

  /** The enable flag after one call: togglePower sets it, move leaves it. */
  function FlagAfter(enabled: bool, c: Call): bool
  {
    match c
    case MoveCall(_) => enabled
    case TogglePowerCall(p) => p
  }

  /** What one call sends: a move sends its SpinCommand while enabled, a
      switch-off sends a stop from the enabled state, and nothing else sends
      anything; so no call sends more than one value. */
  function CallSends(limits: SpeedLimits, invert: bool, enabled: bool, c: Call): (r: seq<uint16>)
    ensures |r| <= 1
    ensures !enabled ==> r == []
  {
    match c
    case MoveCall(m) => if enabled then [SpinCommand(limits, invert, m)] else []
    case TogglePowerCall(p) => if !p && enabled then [0] else []
  }

  /** The enable flag after `calls`, starting from `enabled`: the argument of
      the last togglePower, or the starting flag when there is none. */
  function EnabledAfter(enabled: bool, calls: seq<Call>): (r: bool)
    ensures r == enabled || TogglePowerCall(r) in calls
    ensures (forall i | 0 <= i < |calls| :: calls[i].MoveCall?) ==> r == enabled
    ensures forall i | 0 <= i < |calls| && calls[i].TogglePowerCall? &&
                       (forall j | i < j < |calls| :: calls[j].MoveCall?) :: r == calls[i].powerOn
    decreases |calls|
  {
    if calls == [] then enabled
    else EnabledAfter(FlagAfter(enabled, calls[0]), calls[1..])
  }

  /** The values sent to DynamixelSpinWheel, in order, by `calls` on a
      controller whose enable flag starts at `enabled`: the two-state machine
      of the adapter run call by call. */
  function Sends(limits: SpeedLimits, invert: bool, enabled: bool, calls: seq<Call>): (r: seq<uint16>)
    ensures |r| <= |calls|
    decreases |calls|
  {
    if calls == [] then []
    else CallSends(limits, invert, enabled, calls[0]) + Sends(limits, invert, FlagAfter(enabled, calls[0]), calls[1..])
  }

  /** Running two call sequences one after the other sends what the first
      sends followed by what the second sends from the flag the first leaves. */
  lemma {:induction false} SendsAppend(limits: SpeedLimits, invert: bool, enabled: bool, a: seq<Call>, b: seq<Call>)
    ensures Sends(limits, invert, enabled, a + b)
            == Sends(limits, invert, enabled, a) + Sends(limits, invert, EnabledAfter(enabled, a), b)
    decreases |a|
  {
    if a == [] {
      assert a + b == b;
    } else {
      assert (a + b)[0] == a[0] && (a + b)[1..] == a[1..] + b;
      SendsAppend(limits, invert, FlagAfter(enabled, a[0]), a[1..], b);
    }
  }

  /** The flag after two call sequences is the flag the second leaves when
      started from the flag the first leaves. */
  lemma {:induction false} EnabledAfterAppend(enabled: bool, a: seq<Call>, b: seq<Call>)
    ensures EnabledAfter(enabled, a + b) == EnabledAfter(EnabledAfter(enabled, a), b)
    decreases |a|
  {
    if a == [] {
      assert a + b == b;
    } else {
      assert (a + b)[0] == a[0] && (a + b)[1..] == a[1..] + b;
      EnabledAfterAppend(FlagAfter(enabled, a[0]), a[1..], b);
    }
  }

  /** While the controller stays enabled, every move sends exactly one value. */
  lemma {:induction false} EnabledMovesSendOneEach(limits: SpeedLimits, invert: bool, calls: seq<Call>)
    requires forall i :: 0 <= i < |calls| ==> calls[i].MoveCall?
    ensures |Sends(limits, invert, true, calls)| == |calls|
    ensures forall i :: 0 <= i < |calls| ==>
              Sends(limits, invert, true, calls)[i] == SpinCommand(limits, invert, calls[i].movement)
    ensures EnabledAfter(true, calls)
    decreases |calls|
  {
    if calls != [] {
      assert forall i :: 0 <= i < |calls[1..]| ==> calls[1..][i] == calls[i + 1];
      EnabledMovesSendOneEach(limits, invert, calls[1..]);
    }
  }

  /** A disabled controller that is never switched on sends nothing and stays disabled. */
  lemma {:induction false} DisabledSendsNothing(limits: SpeedLimits, invert: bool, calls: seq<Call>)
    requires forall i :: 0 <= i < |calls| ==> calls[i] != TogglePowerCall(true)
    ensures Sends(limits, invert, false, calls) == []
    ensures !EnabledAfter(false, calls)
    decreases |calls|
  {
    if calls != [] {
      assert forall i :: 0 <= i < |calls[1..]| ==> calls[1..][i] == calls[i + 1];
      DisabledSendsNothing(limits, invert, calls[1..]);
    }
  }

  /** Issuing `calls` on the controller, one after the other, changes its
      enable flag and its trace exactly as the call-sequence semantics say. */
  method Perform(d: DynamixelController, calls: seq<Call>)
    modifies d`enabled, d`sent
    ensures d.enabled == EnabledAfter(old(d.enabled), calls)
    ensures d.sent == old(d.sent) + Sends(d.limits, d.invert, old(d.enabled), calls)
    decreases |calls|
  {
    if calls != [] {
      ghost var e, s := d.enabled, d.sent;
      match calls[0] {
        case MoveCall(m) =>
          d.Move(m);
        case TogglePowerCall(p) =>
          d.TogglePower(p);
      }
      assert d.enabled == FlagAfter(e, calls[0]);
      assert d.sent == s + CallSends(d.limits, d.invert, e, calls[0]);
      Perform(d, calls[1..]);
      assert EnabledAfter(e, calls) == EnabledAfter(FlagAfter(e, calls[0]), calls[1..]);
      assert Sends(d.limits, d.invert, e, calls)
             == CallSends(d.limits, d.invert, e, calls[0]) + Sends(d.limits, d.invert, FlagAfter(e, calls[0]), calls[1..]);
    }
  }

  /** A controller constructed disabled ignores every call sequence that
      never switches it on: it sends nothing and stays disabled. */
  method NeverEnabledIgnoresCalls(limits: SpeedLimits, upsideDown: bool, calls: seq<Call>)
    returns (d: DynamixelController)
    requires forall i :: 0 <= i < |calls| ==> calls[i] != TogglePowerCall(true)
    ensures !d.enabled && d.sent == []
  {
    d := new DynamixelController(0, 1, upsideDown, DynamixelType(0), 1, 0, 1000000, Wheel,
                                 limits, false, Spd);
    Perform(d, calls);
    DisabledSendsNothing(limits, upsideDown, calls);
  }

  /** Switching on, moving, then switching off twice sends the command and a
      single stop: the second switch-off finds the controller already
      disabled, so its move(0) is dropped. */
  method EnableMoveDisableTwice(d: DynamixelController, m: int)
    modifies d`enabled, d`sent
    ensures !d.enabled
    ensures d.sent == old(d.sent) + [SpinCommand(d.limits, d.invert, m), 0]
  {
    d.TogglePower(true);
    d.Move(m);
    d.TogglePower(false);
    d.TogglePower(false);
  }
}
