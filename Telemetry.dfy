/** The 4-byte battery telemetry frame `AA BB <pct> CC` read by the receive task,
    and the battery cache it feeds. */
module Telemetry {
  import opened Primitives

  /** The contents of `uint8_t data[4]` after one `uart_read_bytes` call. */
  type Window = d: seq<uint8> | |d| == 4 witness [0, 0, 0, 0]

  /** One read: the count `uart_read_bytes` returned (negative on a driver error) and the buffer. */
  datatype Read = Read(len: int, data: Window)

  /** `g_battery_level` before any frame has arrived. */
  const InitialBatteryLevel: int := 100

  /** The receive task's acceptance test. */
  predicate IsTelemetryFrame(len: int, data: Window) {
    len == 4 && data[0] == 0xAA && data[1] == 0xBB && data[3] == 0xCC
  }

  /** The battery percentage a read yields, if the frame is accepted. */
  function Decode(len: int, data: Window): (r: Option<int>)
    ensures r.Some? <==> IsTelemetryFrame(len, data)
    ensures r.Some? ==> 0 <= r.value <= 100
  {
    if IsTelemetryFrame(len, data) then Some(Clamp(data[2] as int, 0, 100)) else None
  }

  /** The frame a peer sends to report `pct`. */
  function Frame(pct: uint8): Window {
    [0xAA, 0xBB, pct, 0xCC]
  }

  /** A full-length peer frame is accepted and yields its payload clamped to [0,100]. */
  lemma DecodeFrame(pct: uint8)
    ensures Decode(4, Frame(pct)) == Some(Clamp(pct as int, 0, 100))
    ensures pct <= 100 ==> Decode(4, Frame(pct)) == Some(pct as int)
  {
  }

  /** Only full-length peer frames are accepted. */
  lemma DecodeOnlyFrames(len: int, data: Window)
    ensures Decode(len, data).Some? ==> len == 4 && data == Frame(data[2])
  {
  }

  /** The cache after one iteration of the receive loop. */
  function Step(level: int, r: Read): (next: int)
    ensures IsTelemetryFrame(r.len, r.data) ==> next == Clamp(r.data[2] as int, 0, 100)
    ensures !IsTelemetryFrame(r.len, r.data) ==> next == level
  {
    match Decode(r.len, r.data)
    case Some(v) => v
    case None => level
  }

  /** The cache after the receive loop has handled `history` in order. */
  function Replay(level: int, history: seq<Read>): int
    decreases |history|
  {
    if history == [] then level else Step(Replay(level, history[..|history| - 1]), history[|history| - 1])
  }

  predicate Accepted(r: Read) {
    IsTelemetryFrame(r.len, r.data)
  }

  /** The cache never leaves [0,100], whatever arrives. */
  lemma {:induction false} ReplayInRange(level: int, history: seq<Read>)
    requires 0 <= level <= 100
    ensures 0 <= Replay(level, history) <= 100
    decreases |history|
  {
    if history != [] {
      ReplayInRange(level, history[..|history| - 1]);
    }
  }

  /** Without an accepted frame the cache keeps its value. */
  lemma {:induction false} ReplayNoFrame(level: int, history: seq<Read>)
    requires forall i :: 0 <= i < |history| ==> !Accepted(history[i])
    ensures Replay(level, history) == level
    decreases |history|
  {
    if history != [] {
      ReplayNoFrame(level, history[..|history| - 1]);
    }
  }

  /** The cache holds the clamped payload of the last accepted frame. */
  lemma {:induction false} ReplayLastFrame(level: int, history: seq<Read>, i: nat)
    requires i < |history| && Accepted(history[i])
    requires forall j :: i < j < |history| ==> !Accepted(history[j])
    ensures Replay(level, history) == Clamp(history[i].data[2] as int, 0, 100)
    decreases |history|
  {
    var n := |history| - 1;
    if i < n {
      ReplayLastFrame(level, history[..n], i);
    }
  }
}
