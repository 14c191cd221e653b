/** The tools the bridge registers: their names, argument schemas, the
    single-byte action opcodes, and the bytes each tool puts on the UART. */
module Catalog {
  import opened Primitives
  import opened Ascii
  import opened ApplianceFrame

  /** The action tools, each sending one opcode byte. */
  datatype Action =
    | Relax | Squat | Stand | LieDown | Forward | Backward | TurnLeft | TurnRight
    | Swing | SpeedUp | SwingSpeedUp | WagTail | JumpForward | JumpBackward
    | Greet | Identify | EnrollMasterCommand | EnrollCommand

  /** The byte the battery tool sends to ask for a telemetry frame. */
  const QueryBatteryOpcode: uint8 := 0x47

  function Opcode(a: Action): uint8 {
    match a
    case Relax => 0x29
    case Squat => 0x30
    case Stand => 0x31
    case LieDown => 0x32
    case Forward => 0x33
    case Backward => 0x34
    case TurnLeft => 0x35
    case TurnRight => 0x36
    case Swing => 0x37
    case SpeedUp => 0x38
    case SwingSpeedUp => 0x39
    case WagTail => 0x40
    case JumpForward => 0x41
    case JumpBackward => 0x42
    case Greet => 0x43
    case Identify => 0x44
    case EnrollMasterCommand => 0x45
    case EnrollCommand => 0x46
  }

  /** The co-processor's reading of an action byte: the inverse of `Opcode`. */
  function ActionOf(b: uint8): Option<Action> {
    if b == 0x29 then Some(Relax)
    else if 0x30 <= b <= 0x39 then
      Some([Squat, Stand, LieDown, Forward, Backward, TurnLeft, TurnRight, Swing, SpeedUp, SwingSpeedUp][b - 0x30])
    else if 0x40 <= b <= 0x46 then
      Some([WagTail, JumpForward, JumpBackward, Greet, Identify, EnrollMasterCommand, EnrollCommand][b - 0x40])
    else None
  }

  /** Every opcode lies in 0x29, 0x30-0x39 or 0x40-0x46 (so never the battery query
      0x47) and reads back as its action. */
  lemma OpcodeRoundTrip(a: Action)
    ensures Opcode(a) == 0x29 || 0x30 <= Opcode(a) <= 0x39 || 0x40 <= Opcode(a) <= 0x46
    ensures Opcode(a) != QueryBatteryOpcode
    ensures ActionOf(Opcode(a)) == Some(a)
  {
  }

  /** No two actions share an opcode. */
  lemma OpcodeInjective(a: Action, b: Action)
    ensures Opcode(a) == Opcode(b) ==> a == b
  {
  }

  /** Every registered tool. */
  datatype Tool =
    | AirOff | AirSetTemp | FanOff | FanSetGear | LightOff | LightSetGear
    | LockUnlock | LockLock | Act(action: Action) | QueryBattery

  function ActionName(a: Action): string {
    match a
    case Relax => "relax"
    case Squat => "squat"
    case Stand => "stand"
    case LieDown => "lie_down"
    case Forward => "forward"
    case Backward => "backward"
    case TurnLeft => "turn_left"
    case TurnRight => "turn_right"
    case Swing => "swing"
    case SpeedUp => "speed_up"
    case SwingSpeedUp => "swing_speed_up"
    case WagTail => "wag_tail"
    case JumpForward => "jump_forward"
    case JumpBackward => "jump_backward"
    case Greet => "greet"
    case Identify => "Identify who I am"
    case EnrollMasterCommand => "Enter the master's command"
    case EnrollCommand => "Enter a command"
  }

  /** The name each tool is registered under. */
  function ToolName(t: Tool): string {
    match t
    case AirOff => "air.off"
    case AirSetTemp => "air.set_temp"
    case FanOff => "fan.off"
    case FanSetGear => "fan.set_gear"
    case LightOff => "light.off"
    case LightSetGear => "light.set_gear"
    case LockUnlock => "lock.unlock"
    case LockLock => "lock.lock"
    case Act(a) => "self.mcpcar." + ActionName(a)
    case QueryBattery => "self.mcpcar.get_battery_level"
  }

  /** An integer argument with its inclusive schema bounds. */
  datatype Param = Param(name: string, min: int, max: int)

  function ToolParam(t: Tool): Option<Param> {
    match t
    case AirSetTemp => Some(Param("temperature", 16, 32))
    case FanSetGear => Some(Param("gear", 1, 3))
    case LightSetGear => Some(Param("gear", 1, 5))
    case _ => None
  }

  function ActionByName(name: string): Option<Action> {
    if name == "relax" then Some(Relax)
    else if name == "squat" then Some(Squat)
    else if name == "stand" then Some(Stand)
    else if name == "lie_down" then Some(LieDown)
    else if name == "forward" then Some(Forward)
    else if name == "backward" then Some(Backward)
    else if name == "turn_left" then Some(TurnLeft)
    else if name == "turn_right" then Some(TurnRight)
    else if name == "swing" then Some(Swing)
    else if name == "speed_up" then Some(SpeedUp)
    else if name == "swing_speed_up" then Some(SwingSpeedUp)
    else if name == "wag_tail" then Some(WagTail)
    else if name == "jump_forward" then Some(JumpForward)
    else if name == "jump_backward" then Some(JumpBackward)
    else if name == "greet" then Some(Greet)
    else if name == "Identify who I am" then Some(Identify)
    else if name == "Enter the master's command" then Some(EnrollMasterCommand)
    else if name == "Enter a command" then Some(EnrollCommand)
    else None
  }

  /** The tool registered under `name`, as the registry finds it once the bridge is constructed. */
  function ToolByName(name: string): Option<Tool> {
    if name == "air.off" then Some(AirOff)
    else if name == "air.set_temp" then Some(AirSetTemp)
    else if name == "fan.off" then Some(FanOff)
    else if name == "fan.set_gear" then Some(FanSetGear)
    else if name == "light.off" then Some(LightOff)
    else if name == "light.set_gear" then Some(LightSetGear)
    else if name == "lock.unlock" then Some(LockUnlock)
    else if name == "lock.lock" then Some(LockLock)
    else if name == "self.mcpcar.get_battery_level" then Some(QueryBattery)
    else if HasPrefix(name, "self.mcpcar.") then
      match ActionByName(name[12..])
      case Some(a) => Some(Act(a))
      case None => None
    else None
  }

  lemma ActionByNameRoundTrip(a: Action)
    ensures ActionByName(ActionName(a)) == Some(a)
  {
  }

  /** Each tool is found under its own name, so no two tools share a name. */
  lemma ToolByNameRoundTrip(t: Tool)
    ensures ToolByName(ToolName(t)) == Some(t)
  {
    var name := ToolName(t);
    if t.Act? {
      var a := t.action;
      assert name[..12] == "self.mcpcar.";
      assert name[12..] == ActionName(a);
      assert name[0] == 's';
      assert name != "self.mcpcar.get_battery_level" by {
        assert |ActionName(a)| != 17 || ActionName(a)[0] != 'g';
      }
      ActionByNameRoundTrip(a);
    }
  }

  /** A name that finds a tool is that tool's registered name: nothing else is routed. */
  lemma ToolByNameSound(name: string, t: Tool)
    requires ToolByName(name) == Some(t)
    ensures name == ToolName(t)
  {
    if HasPrefix(name, "self.mcpcar.") && t.Act? {
      assert name == name[..12] + name[12..];
      ActionByNameSound(name[12..], t.action);
    }
  }

  lemma ActionByNameSound(name: string, a: Action)
    requires ActionByName(name) == Some(a)
    ensures name == ActionName(a)
  {
    if name == "relax" {
      assert a == Relax;
    } else if name == "squat" {
      assert a == Squat;
    } else if name == "stand" {
      assert a == Stand;
    } else if name == "lie_down" {
      assert a == LieDown;
    } else if name == "forward" {
      assert a == Forward;
    } else if name == "backward" {
      assert a == Backward;
    } else if name == "turn_left" {
      assert a == TurnLeft;
    } else if name == "turn_right" {
      assert a == TurnRight;
    } else if name == "swing" {
      assert a == Swing;
    } else if name == "speed_up" {
      assert a == SpeedUp;
    } else if name == "swing_speed_up" {
      assert a == SwingSpeedUp;
    } else if name == "wag_tail" {
      assert a == WagTail;
    } else if name == "jump_forward" {
      assert a == JumpForward;
    } else if name == "jump_backward" {
      assert a == JumpBackward;
    } else if name == "greet" {
      assert a == Greet;
    } else if name == "Identify who I am" {
      assert a == Identify;
    } else if name == "Enter the master's command" {
      assert a == EnrollMasterCommand;
    } else if name == "Enter a command" {
      assert a == EnrollCommand;
    }
  }

  lemma ToolNameInjective(t1: Tool, t2: Tool)
    ensures ToolName(t1) == ToolName(t2) ==> t1 == t2
  {
    ToolByNameRoundTrip(t1);
    ToolByNameRoundTrip(t2);
  }

  /** The bytes one invocation of `t` with schema argument `arg` sends. */
  function Wire(t: Tool, arg: int): seq<uint8> {
    match t
    case AirOff => FrameBytes(Encode(Air, Off, 0))
    case AirSetTemp => FrameBytes(Encode(Air, On, arg))
    case FanOff => FrameBytes(Encode(Fan, Off, 0))
    case FanSetGear => FrameBytes(Encode(Fan, On, arg))
    case LightOff => FrameBytes(Encode(Light, Off, 0))
    case LightSetGear => FrameBytes(Encode(Light, On, arg))
    case LockUnlock => FrameBytes(Encode(Lock, On, 1))
    case LockLock => FrameBytes(Encode(Lock, Off, 0))
    case Act(a) => [Opcode(a)]
    case QueryBattery => [QueryBatteryOpcode]
  }

  // The exact text of the fixed-argument tools, whatever argument the registry passes.
  // The Air and Light off handlers pass 0 through the clamp, so their frames carry 16 and 1.

  lemma AirOffText(arg: int)
    ensures FromBytes(Wire(AirOff, arg)) == "BT,Air,OFF,16\r\n"
  {
  }

  lemma FanOffText(arg: int)
    ensures FromBytes(Wire(FanOff, arg)) == "BT,Fan,OFF,0\r\n"
  {
  }

  lemma LightOffText(arg: int)
    ensures FromBytes(Wire(LightOff, arg)) == "BT,Light,OFF,1\r\n"
  {
  }

  lemma LockUnlockText(arg: int)
    ensures FromBytes(Wire(LockUnlock, arg)) == "BT,Lock,ON,1\r\n"
  {
  }

  lemma LockLockText(arg: int)
    ensures FromBytes(Wire(LockLock, arg)) == "BT,Lock,OFF,0\r\n"
  {
  }

  /** `air.set_temp` carries a temperature in [16,32] for every argument, and the
      argument itself when the schema's range holds. */
  lemma AirSetTempInRange(arg: int)
    ensures ParseFrame(Wire(AirSetTemp, arg)).Some?
    ensures var c := ParseFrame(Wire(AirSetTemp, arg)).value;
      c.device == Air && c.state == On && 16 <= c.value <= 32 && (16 <= arg <= 32 ==> c.value == arg)
  {
    ParseFrameRoundTrip(Encode(Air, On, arg));
  }

  /** `light.set_gear` carries a gear in [1,5] for every argument, and the
      argument itself when the schema's range holds. */
  lemma LightSetGearInRange(arg: int)
    ensures ParseFrame(Wire(LightSetGear, arg)).Some?
    ensures var c := ParseFrame(Wire(LightSetGear, arg)).value;
      c.device == Light && c.state == On && 1 <= c.value <= 5 && (1 <= arg <= 5 ==> c.value == arg)
  {
    ParseFrameRoundTrip(Encode(Light, On, arg));
  }

  /** `fan.set_gear` carries its argument unclamped. */
  lemma FanSetGearUnclamped(arg: int)
    ensures ParseFrame(Wire(FanSetGear, arg)) == Some(Command(Fan, On, arg))
  {
    ParseFrameRoundTrip(Command(Fan, On, arg));
  }

  /** ... written as the exact base-10 text of the argument. */
  lemma FanSetGearText(arg: int)
    ensures FromBytes(Wire(FanSetGear, arg)) == "BT,Fan,ON," + Decimal.FormatInt(arg) + "\r\n"
  {
  }

  /** A schema argument inside its bounds reaches the wire unchanged, for all three
      tools that take one. */
  lemma SchemaArgumentPassesThrough(t: Tool, arg: int)
    requires ToolParam(t).Some? && ToolParam(t).value.min <= arg <= ToolParam(t).value.max
    ensures ParseFrame(Wire(t, arg)).Some? && ParseFrame(Wire(t, arg)).value.value == arg
  {
    match t
    case AirSetTemp => AirSetTempInRange(arg);
    case FanSetGear => FanSetGearUnclamped(arg);
    case LightSetGear => LightSetGearInRange(arg);
  }

  /** Action tools send exactly their opcode; the battery tool sends 0x47. */
  lemma SingleByteTools(a: Action, arg: int)
    ensures Wire(Act(a), arg) == [Opcode(a)] && ActionOf(Wire(Act(a), arg)[0]) == Some(a)
    ensures Wire(QueryBattery, arg) == [0x47]
  {
  }

  /** Whatever the 32-bit argument, one invocation sends at most 31 bytes. */
  lemma WireFits(t: Tool, arg: int)
    requires IsInt32(arg)
    ensures 1 <= |Wire(t, arg)| < CmdBufferSize
  {
    match t
    case Act(_) =>
    case QueryBattery =>
    case AirOff => FrameFits(Encode(Air, Off, 0));
    case AirSetTemp => FrameFits(Encode(Air, On, arg));
    case FanOff => FrameFits(Encode(Fan, Off, 0));
    case FanSetGear => FrameFits(Encode(Fan, On, arg));
    case LightOff => FrameFits(Encode(Light, Off, 0));
    case LightSetGear => FrameFits(Encode(Light, On, arg));
    case LockUnlock => FrameFits(Encode(Lock, On, 1));
    case LockLock => FrameFits(Encode(Lock, Off, 0));
  }
}
