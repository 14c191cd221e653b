/** The bridge object: every byte written to UART 1, and the battery cache
    `g_battery_level` that the receive task fills and the battery tool reads. */
module Car {
  import opened Primitives
  import opened Ascii
  import opened ApplianceFrame
  import opened Catalog
  import Telemetry

  /** What a handler returns to the tool server. */
  datatype ReturnValue = Bool(b: bool) | Int(i: int)

  /** `sprintf(cmd, "BT,%s,%s,%d\r\n", ...)`: the frame text and its NUL terminator
      written to the front of `cmd`; the caller must leave room for both. */
  method Sprintf(cmd: array<uint8>, c: Command)
    requires |FrameBytes(c)| < cmd.Length
    modifies cmd
    ensures cmd[..|FrameBytes(c)|] == FrameBytes(c) && cmd[|FrameBytes(c)|] == 0
    ensures forall i :: |FrameBytes(c)| < i < cmd.Length ==> cmd[i] == old(cmd[i])
  {
    var f := FrameBytes(c);
    forall i | 0 <= i < |f| {
      cmd[i] := f[i];
    }
    cmd[|f|] := 0;
  }

  class McpCar {
    /** The bytes handed to `uart_write_bytes`, oldest first. */
    var tx: seq<uint8>
    /** `g_battery_level`. */
    var battery: int

    ghost predicate Valid()
      reads this
    {
      0 <= battery <= 100
    }

    /** Construction: nothing sent yet, the cache at its initial 100. */
    constructor ()
      ensures Valid()
      ensures tx == [] && battery == Telemetry.InitialBatteryLevel
    {
      tx := [];
      battery := Telemetry.InitialBatteryLevel;
    }

    /** `uart_write_bytes(UART_NUM, buf, len)`. */
    method UartWriteBytes(buf: array<uint8>, len: nat)
      requires len <= buf.Length
      modifies this
      ensures tx == old(tx) + buf[..len] && battery == old(battery)
    {
      tx := tx + buf[..len];
    }

    /** `send_uart_command`: one opcode byte. */
    method SendUartCommand(command: uint8)
      modifies this
      ensures tx == old(tx) + [command] && battery == old(battery)
    {
      var buf := new uint8[1];
      buf[0] := command;
      UartWriteBytes(buf, 1);
    }

    /** The body the four encoders share once the number is chosen: format into
        `char cmd[32]`, then send `strlen(cmd)` bytes. */
    method SendFrame(c: Command)
      requires IsInt32(c.value)
      modifies this
      ensures tx == old(tx) + FrameBytes(c) && battery == old(battery)
    {
      var cmd := new uint8[CmdBufferSize];
      FrameFits(c);
      Sprintf(cmd, c);
      var f := FrameBytes(c);
      assert cmd[..][|f|] == 0;
      var n := CStrLen(cmd[..]);
      assert n == |f| by {
        assert n <= |f|;
        assert forall i :: 0 <= i < |f| ==> cmd[..][i] == f[i] != 0;
      }
      UartWriteBytes(cmd, n);
    }

    /** `air_send_cmd`: the temperature is clamped to [16,32]. */
    method AirSendCmd(state: Switch, temp: int32)
      modifies this
      ensures tx == old(tx) + FrameBytes(Encode(Air, state, temp as int)) && battery == old(battery)
    {
      var clamped := Clamp(temp as int, 16, 32);
      SendFrame(Command(Air, state, clamped));
    }

    /** `fan_send_cmd`: the gear is sent as given. */
    method FanSendCmd(state: Switch, gear: int32)
      modifies this
      ensures tx == old(tx) + FrameBytes(Encode(Fan, state, gear as int)) && battery == old(battery)
    {
      SendFrame(Command(Fan, state, gear as int));
    }

    /** `light_send_cmd`: the gear is clamped to [1,5]. */
    method LightSendCmd(state: Switch, gear: int32)
      modifies this
      ensures tx == old(tx) + FrameBytes(Encode(Light, state, gear as int)) && battery == old(battery)
    {
      var clamped := Clamp(gear as int, 1, 5);
      SendFrame(Command(Light, state, clamped));
    }

    /** `lock_send_cmd`: the value is sent as given. */
    method LockSendCmd(state: Switch, gear: int32)
      modifies this
      ensures tx == old(tx) + FrameBytes(Encode(Lock, state, gear as int)) && battery == old(battery)
    {
      SendFrame(Command(Lock, state, gear as int));
    }

    /** `GetBatteryLevel`: the cached percentage. */
    method GetBatteryLevel() returns (level: int)
      requires Valid()
      ensures level == battery && 0 <= level <= 100
    {
      level := battery;
    }

    /** The handler registered for `t`, called with the schema argument `arg`
        (ignored by tools without one). Every handler sends `Wire(t, arg)`, which
        depends on `t` and `arg` alone, so a repeated call repeats its bytes; none
        touches the battery cache. The battery tool's 100 ms wait is not modelled:
        it returns the cache as it stands. */
    method Invoke(t: Tool, arg: int32) returns (r: ReturnValue)
      requires Valid()
      modifies this
      ensures Valid() && battery == old(battery)
      ensures tx == old(tx) + Wire(t, arg as int)
      ensures r == if t == QueryBattery then Int(battery) else Bool(true)
    {
      match t
      case AirOff =>
        AirSendCmd(Off, 0);
        r := Bool(true);
      case AirSetTemp =>
        AirSendCmd(On, arg);
        r := Bool(true);
      case FanOff =>
        FanSendCmd(Off, 0);
        r := Bool(true);
      case FanSetGear =>
        FanSendCmd(On, arg);
        r := Bool(true);
      case LightOff =>
        LightSendCmd(Off, 0);
        r := Bool(true);
      case LightSetGear =>
        LightSendCmd(On, arg);
        r := Bool(true);
      case LockUnlock =>
        LockSendCmd(On, 1);
        r := Bool(true);
      case LockLock =>
        LockSendCmd(Off, 0);
        r := Bool(true);
      case Act(a) =>
        SendUartCommand(Opcode(a));
        r := Bool(true);
      case QueryBattery =>
        SendUartCommand(QueryBatteryOpcode);
        var level := GetBatteryLevel();
        r := Int(level);
    }

    /** Calling the same tool twice with the same argument sends the same bytes twice. */
    method InvokeTwice(t: Tool, arg: int32) returns (r1: ReturnValue, r2: ReturnValue)
      requires Valid()
      modifies this
      ensures Valid() && battery == old(battery)
      ensures tx == old(tx) + Wire(t, arg as int) + Wire(t, arg as int)
      ensures r1 == r2
    {
      r1 := Invoke(t, arg);
      r2 := Invoke(t, arg);
    }

    /** One iteration of `uart1_receive_task`: `len` is what `uart_read_bytes`
        returned and `data` the 4-byte buffer. The cache takes the clamped
        payload exactly when the window is a whole `AA BB x CC` frame. */
    method ReceiveStep(len: int, data: Telemetry.Window)
      requires Valid()
      modifies this
      ensures Valid() && tx == old(tx)
      ensures Telemetry.IsTelemetryFrame(len, data) ==> battery == Clamp(data[2] as int, 0, 100)
      ensures !Telemetry.IsTelemetryFrame(len, data) ==> battery == old(battery)
      ensures battery == Telemetry.Step(old(battery), Telemetry.Read(len, data))
    {
      if len == 4 && data[0] == 0xAA && data[1] == 0xBB && data[3] == 0xCC {
        battery := Clamp(data[2] as int, 0, 100);
      }
    }
  }
}
