/** The ASCII appliance frames `BT,<Device>,<State>,<N>\r\n` that the four
    `*_send_cmd` encoders format into a 32-byte buffer. */
module ApplianceFrame {
  import opened Primitives
  import opened Ascii
  import opened Decimal

  datatype Device = Air | Fan | Light | Lock

  /** The `state` string the handlers pass: "ON" or "OFF". */
  datatype Switch = On | Off

  /** One appliance command as it is put on the wire: the number is the one printed. */
  datatype Command = Command(device: Device, state: Switch, value: int)

  /** The size of the `char cmd[32]` buffer each encoder formats into. */
  const CmdBufferSize: nat := 32

  function DeviceName(d: Device): string {
    match d
    case Air => "Air"
    case Fan => "Fan"
    case Light => "Light"
    case Lock => "Lock"
  }

  function SwitchName(s: Switch): string {
    match s
    case On => "ON"
    case Off => "OFF"
  }

  /** The command an encoder sends for its argument: Air clamps to [16,32],
      Light to [1,5], Fan and Lock print the argument as it is. */
  function Encode(d: Device, s: Switch, arg: int): (c: Command)
    ensures c.device == d && c.state == s
    ensures d == Air ==> 16 <= c.value <= 32 && (16 <= arg <= 32 ==> c.value == arg)
    ensures d == Light ==> 1 <= c.value <= 5 && (1 <= arg <= 5 ==> c.value == arg)
    ensures d == Fan || d == Lock ==> c.value == arg
  {
    match d
    case Air => Command(Air, s, Clamp(arg, 16, 32))
    case Light => Command(Light, s, Clamp(arg, 1, 5))
    case Fan => Command(Fan, s, arg)
    case Lock => Command(Lock, s, arg)
  }

  /** The text of the frame for `c`. */
  function FrameText(c: Command): string {
    "BT," + DeviceName(c.device) + "," + SwitchName(c.state) + "," + FormatInt(c.value) + "\r\n"
  }

  lemma FrameTextIsText(c: Command)
    ensures IsText(FrameText(c))
  {
    var d, s, n := DeviceName(c.device), SwitchName(c.state), FormatInt(c.value);
    assert IsText(d) && IsText(s);
    FormatIntIsText(c.value);
    TextConcat("BT,", d);
    TextConcat("BT," + d, ",");
    TextConcat("BT," + d + ",", s);
    TextConcat("BT," + d + "," + s, ",");
    TextConcat("BT," + d + "," + s + ",", n);
    TextConcat("BT," + d + "," + s + "," + n, "\r\n");
  }

  /** The bytes `uart_write_bytes` sends for `c`. */
  function FrameBytes(c: Command): (b: seq<uint8>)
    ensures |b| == |FrameText(c)|
    ensures forall i :: 0 <= i < |b| ==> b[i] != 0
  {
    FrameTextIsText(c);
    ToBytes(FrameText(c))
  }

  /** The transmitted bytes read back as the frame's text. */
  lemma FrameBytesText(c: Command)
    ensures FromBytes(FrameBytes(c)) == FrameText(c)
  {
  }

  predicate HasPrefix(s: string, p: string) {
    |p| <= |s| && s[..|p|] == p
  }

  /** Reads a device name and its trailing comma. */
  function ParseDevice(s: string): Option<(Device, string)> {
    if HasPrefix(s, "Air,") then Some((Air, s[4..]))
    else if HasPrefix(s, "Fan,") then Some((Fan, s[4..]))
    else if HasPrefix(s, "Light,") then Some((Light, s[6..]))
    else if HasPrefix(s, "Lock,") then Some((Lock, s[5..]))
    else None
  }

  /** Reads a state and its trailing comma. */
  function ParseSwitch(s: string): Option<(Switch, string)> {
    if HasPrefix(s, "ON,") then Some((On, s[3..]))
    else if HasPrefix(s, "OFF,") then Some((Off, s[4..]))
    else None
  }

  /** What the co-processor reads from a frame: the inverse of `FrameText`. */
  function ParseFrameText(s: string): Option<Command> {
    if |s| < 5 || !HasPrefix(s, "BT,") || s[|s| - 2..] != "\r\n" then None
    else
      match ParseDevice(s[3..|s| - 2])
      case None => None
      case Some((d, rest)) =>
        match ParseSwitch(rest)
        case None => None
        case Some((st, num)) =>
          match ParseInt(num)
          case None => None
          case Some(n) => Some(Command(d, st, n))
  }

  function ParseFrame(b: seq<uint8>): Option<Command> {
    ParseFrameText(FromBytes(b))
  }

  lemma ParseDeviceName(d: Device, rest: string)
    ensures ParseDevice(DeviceName(d) + "," + rest) == Some((d, rest))
  {
    var s := DeviceName(d) + "," + rest;
    var n := |DeviceName(d)| + 1;
    assert s[..n] == DeviceName(d) + ",";
    assert s[n..] == rest;
    match d
    case Air =>
    case Fan => assert s[0] == 'F';
    case Light => assert s[0] == 'L' && s[1] == 'i';
    case Lock => assert s[0] == 'L' && s[1] == 'o';
  }

  lemma ParseSwitchName(st: Switch, rest: string)
    ensures ParseSwitch(SwitchName(st) + "," + rest) == Some((st, rest))
  {
    var s := SwitchName(st) + "," + rest;
    var n := |SwitchName(st)| + 1;
    assert s[..n] == SwitchName(st) + ",";
    assert s[n..] == rest;
    if st == Off {
      assert s[1] == 'F';
    }
  }

  /** Every frame reads back as the command it was built from. */
  lemma ParseFrameTextRoundTrip(c: Command)
    ensures ParseFrameText(FrameText(c)) == Some(c)
  {
    var num := FormatInt(c.value);
    var afterDevice := SwitchName(c.state) + "," + num;
    var body := DeviceName(c.device) + "," + afterDevice;
    var s := FrameText(c);
    assert s == "BT," + body + "\r\n";
    assert s[..3] == "BT,";
    assert s[|s| - 2..] == "\r\n";
    assert s[3..|s| - 2] == body;
    ParseDeviceName(c.device, afterDevice);
    ParseSwitchName(c.state, num);
    ParseFormatInt(c.value);
  }

  /** The same on the bytes that are transmitted. */
  lemma ParseFrameRoundTrip(c: Command)
    ensures ParseFrame(FrameBytes(c)) == Some(c)
  {
    FrameTextIsText(c);
    FromToBytes(FrameText(c));
    ParseFrameTextRoundTrip(c);
  }

  /** Distinct commands are distinct on the wire. */
  lemma FrameBytesInjective(c1: Command, c2: Command)
    ensures FrameBytes(c1) == FrameBytes(c2) ==> c1 == c2
  {
    ParseFrameRoundTrip(c1);
    ParseFrameRoundTrip(c2);
  }

  /** For every 32-bit number the frame and its NUL fit in `cmd[32]`. */
  lemma FrameFits(c: Command)
    requires IsInt32(c.value)
    ensures |FrameBytes(c)| + 1 <= CmdBufferSize
  {
    FormatInt32Length(c.value);
    assert |DeviceName(c.device)| <= 5;
    assert |SwitchName(c.state)| <= 3;
  }
}
