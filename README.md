# McpCar UART bridge — a Dafny model

`McpCar.cc` is the board-specific bridge of the bread-compact-wifi board. It
registers MCP tools. Each tool, when invoked, writes a short message on UART 1
to a co-processor that drives a robot car and a few appliance emulations. The
messages are of two kinds:

- appliance frames `BT,<Device>,<State>,<N>\r\n`, formatted by `air_send_cmd`,
  `fan_send_cmd`, `light_send_cmd` and `lock_send_cmd` into a 32-byte buffer;
- single opcode bytes, sent by `send_uart_command`.

A receive task reads 4-byte telemetry windows `AA BB <pct> CC` from the same UART
and keeps the battery percentage in `g_battery_level`. The battery tool sends
`0x47` and returns that cached value.

The model has these parts:

- `Primitives`: `uint8`, the 32-bit `int32`, `Option`, and the clamp used by the encoders
  and by `std::clamp`.
- `Ascii`: text to bytes and back, and `strlen` (`CStrLen`).
- `Decimal`: the `%d` conversion (`FormatInt`), its inverse, and its length bound.
- `ApplianceFrame`: devices, states, the per-device clamp (`Encode`), the frame text and bytes,
  and a parser that inverts the frame.
- `Telemetry`: the receive task's acceptance test and decoder, and the cache after any
  sequence of reads (`Replay`).
- `Catalog`: the action opcodes, tool names and schemas, and the bytes each tool sends (`Wire`).
- `Car`: the class `McpCar`. Its field `tx` is the log of every byte given to
  `uart_write_bytes`, and its field `battery` is `g_battery_level`. Its methods are the four
  encoders, `send_uart_command`, `GetBatteryLevel`, the tool handlers (`Invoke`) and one
  iteration of the receive loop (`ReceiveStep`).

Two facts of the code the model reproduces:

- The `air.off` handler calls `air_send_cmd("OFF", 0)`, and the clamp turns the 0 into 16,
  so it sends `BT,Air,OFF,16\r\n`. Likewise `light.off` passes 0 through the Light clamp
  and sends `BT,Light,OFF,1\r\n`.
- The identify and enroll action tools are registered as `self.mcpcar.Identify who I am`,
  `self.mcpcar.Enter the master's command` and `self.mcpcar.Enter a command`.

## Model

| member | source | states |
|---|---|---|
| Primitives.Clamp | xiaozhi-esp32-1.7.6v1.0/main/boards/bread-compact-wifi/McpCar.cc:24-25 | the result lies in [lo,hi]; it is the input when the input is in range, else the nearer bound (same for the Light clamp at :42-43 and `std::clamp` at :328) |
| Ascii.CStrLen | xiaozhi-esp32-1.7.6v1.0/main/boards/bread-compact-wifi/McpCar.cc:27 | `strlen` is the index of the first NUL: that byte is 0 and every byte before it is not |
| Decimal.Digits | xiaozhi-esp32-1.7.6v1.0/main/boards/bread-compact-wifi/McpCar.cc:26 | the `%d` digits of a natural number are a non-empty digit string without padding: a leading '0' only for 0, which prints as "0" |
| Decimal.FormatInt | xiaozhi-esp32-1.7.6v1.0/main/boards/bread-compact-wifi/McpCar.cc:26 | `%d` text is non-empty, starts with '-' exactly for negative numbers, and is otherwise digits |
| Decimal.DigitsValueOfDigits | xiaozhi-esp32-1.7.6v1.0/main/boards/bread-compact-wifi/McpCar.cc:26 | reading the digits of n in base 10 gives n back |
| Decimal.ParseFormatInt | xiaozhi-esp32-1.7.6v1.0/main/boards/bread-compact-wifi/McpCar.cc:26 | parsing the `%d` text of any integer gives that integer back |
| Decimal.FormatIntInjective | xiaozhi-esp32-1.7.6v1.0/main/boards/bread-compact-wifi/McpCar.cc:26 | distinct integers have distinct `%d` text |
| Decimal.DigitsLength | xiaozhi-esp32-1.7.6v1.0/main/boards/bread-compact-wifi/McpCar.cc:23 | a number below 10^k has at most k digits |
| Decimal.FormatInt32Length | xiaozhi-esp32-1.7.6v1.0/main/boards/bread-compact-wifi/McpCar.cc:23-26 | `%d` of any 32-bit int is at most 11 characters |
| ApplianceFrame.Encode | xiaozhi-esp32-1.7.6v1.0/main/boards/bread-compact-wifi/McpCar.cc:21-54 | Air carries a number in [16,32] and Light one in [1,5], each equal to the argument when it is already in range; Fan and Lock carry the argument unchanged; device and state are kept |
| ApplianceFrame.FrameBytes | xiaozhi-esp32-1.7.6v1.0/main/boards/bread-compact-wifi/McpCar.cc:26-27 | the frame bytes are as many as the frame's characters and none is NUL, so `strlen` counts the whole frame |
| ApplianceFrame.FrameBytesText | xiaozhi-esp32-1.7.6v1.0/main/boards/bread-compact-wifi/McpCar.cc:26 | the transmitted bytes read back as `"BT," + Device + "," + State + "," + %d(N) + "\r\n"` |
| ApplianceFrame.ParseFrameTextRoundTrip | xiaozhi-esp32-1.7.6v1.0/main/boards/bread-compact-wifi/McpCar.cc:26 | parsing a frame's text gives back the device, state and number it was built from |
| ApplianceFrame.ParseFrameRoundTrip | xiaozhi-esp32-1.7.6v1.0/main/boards/bread-compact-wifi/McpCar.cc:26-27 | parsing the transmitted bytes gives back the command |
| ApplianceFrame.FrameBytesInjective | xiaozhi-esp32-1.7.6v1.0/main/boards/bread-compact-wifi/McpCar.cc:34 | distinct commands are distinct on the wire |
| ApplianceFrame.FrameFits | xiaozhi-esp32-1.7.6v1.0/main/boards/bread-compact-wifi/McpCar.cc:23 | for every 32-bit number the frame plus its NUL fit in `char cmd[32]` |
| Telemetry.Decode | xiaozhi-esp32-1.7.6v1.0/main/boards/bread-compact-wifi/McpCar.cc:326-328 | a read yields a value exactly when it is a 4-byte `AA BB x CC` window, and the value lies in [0,100] |
| Telemetry.DecodeFrame | xiaozhi-esp32-1.7.6v1.0/main/boards/bread-compact-wifi/McpCar.cc:326-328 | the peer frame `AA BB p CC` of length 4 yields clamp(p,0,100), which is p when p <= 100 |
| Telemetry.DecodeOnlyFrames | xiaozhi-esp32-1.7.6v1.0/main/boards/bread-compact-wifi/McpCar.cc:326 | any accepted read is exactly the peer frame of its payload |
| Telemetry.Step | xiaozhi-esp32-1.7.6v1.0/main/boards/bread-compact-wifi/McpCar.cc:325-328 | the cache after one read is the clamped payload of a valid frame, else unchanged |
| Telemetry.ReplayInRange | xiaozhi-esp32-1.7.6v1.0/main/boards/bread-compact-wifi/McpCar.cc:319-332 | starting in [0,100], the cache stays in [0,100] across any sequence of reads |
| Telemetry.ReplayNoFrame | xiaozhi-esp32-1.7.6v1.0/main/boards/bread-compact-wifi/McpCar.cc:323-332 | if no read in a sequence is a valid frame, the cache is unchanged |
| Telemetry.ReplayLastFrame | xiaozhi-esp32-1.7.6v1.0/main/boards/bread-compact-wifi/McpCar.cc:323-332 | after a sequence of reads the cache holds the clamped payload of the last valid frame |
| Catalog.OpcodeRoundTrip | xiaozhi-esp32-1.7.6v1.0/main/boards/bread-compact-wifi/McpCar.cc:160-302 | every action opcode is 0x29, in 0x30-0x39 or in 0x40-0x46, is not 0x47, and decodes back to its action |
| Catalog.OpcodeInjective | xiaozhi-esp32-1.7.6v1.0/main/boards/bread-compact-wifi/McpCar.cc:160-302 | no two action tools share an opcode |
| Catalog.ActionByNameRoundTrip | xiaozhi-esp32-1.7.6v1.0/main/boards/bread-compact-wifi/McpCar.cc:160-302 | every action tool name suffix maps back to its action |
| Catalog.ToolByNameRoundTrip | xiaozhi-esp32-1.7.6v1.0/main/boards/bread-compact-wifi/McpCar.cc:64-305 | every tool is found under the name it is registered with |
| Catalog.ActionByNameSound | xiaozhi-esp32-1.7.6v1.0/main/boards/bread-compact-wifi/McpCar.cc:160-302 | a suffix that finds an action is exactly that action's name |
| Catalog.ToolByNameSound | xiaozhi-esp32-1.7.6v1.0/main/boards/bread-compact-wifi/McpCar.cc:64-305 | a name that finds a tool is exactly that tool's registered name, so no other name reaches a handler |
| Catalog.ToolNameInjective | xiaozhi-esp32-1.7.6v1.0/main/boards/bread-compact-wifi/McpCar.cc:64-305 | no two tools are registered under the same name |
| Catalog.AirOffText | xiaozhi-esp32-1.7.6v1.0/main/boards/bread-compact-wifi/McpCar.cc:67 | `air.off` sends exactly `BT,Air,OFF,16\r\n` |
| Catalog.FanOffText | xiaozhi-esp32-1.7.6v1.0/main/boards/bread-compact-wifi/McpCar.cc:82 | `fan.off` sends exactly `BT,Fan,OFF,0\r\n` |
| Catalog.LightOffText | xiaozhi-esp32-1.7.6v1.0/main/boards/bread-compact-wifi/McpCar.cc:97 | `light.off` sends exactly `BT,Light,OFF,1\r\n` |
| Catalog.LockUnlockText | xiaozhi-esp32-1.7.6v1.0/main/boards/bread-compact-wifi/McpCar.cc:112 | `lock.unlock` sends exactly `BT,Lock,ON,1\r\n` |
| Catalog.LockLockText | xiaozhi-esp32-1.7.6v1.0/main/boards/bread-compact-wifi/McpCar.cc:118 | `lock.lock` sends exactly `BT,Lock,OFF,0\r\n` |
| Catalog.AirSetTempInRange | xiaozhi-esp32-1.7.6v1.0/main/boards/bread-compact-wifi/McpCar.cc:70-75 | `air.set_temp` sends an Air ON frame whose temperature is in [16,32] for every argument, and is the argument when it is in [16,32] |
| Catalog.LightSetGearInRange | xiaozhi-esp32-1.7.6v1.0/main/boards/bread-compact-wifi/McpCar.cc:100-105 | `light.set_gear` sends a Light ON frame whose gear is in [1,5] for every argument, and is the argument when it is in [1,5] |
| Catalog.FanSetGearUnclamped | xiaozhi-esp32-1.7.6v1.0/main/boards/bread-compact-wifi/McpCar.cc:85-90 | `fan.set_gear` sends a Fan ON frame carrying the argument unclamped |
| Catalog.FanSetGearText | xiaozhi-esp32-1.7.6v1.0/main/boards/bread-compact-wifi/McpCar.cc:34 | that frame is `BT,Fan,ON,` followed by the argument's exact base-10 text and `\r\n` |
| Catalog.SchemaArgumentPassesThrough | xiaozhi-esp32-1.7.6v1.0/main/boards/bread-compact-wifi/McpCar.cc:71 | for the three tools with an integer schema, an argument inside the schema bounds reaches the wire unchanged |
| Catalog.SingleByteTools | xiaozhi-esp32-1.7.6v1.0/main/boards/bread-compact-wifi/McpCar.cc:145-148 | an action tool sends exactly its one opcode byte, which decodes back to the action; the battery tool sends exactly 0x47 |
| Catalog.WireFits | xiaozhi-esp32-1.7.6v1.0/main/boards/bread-compact-wifi/McpCar.cc:23 | any invocation with a 32-bit argument sends between 1 and 31 bytes |
| Car.Sprintf | xiaozhi-esp32-1.7.6v1.0/main/boards/bread-compact-wifi/McpCar.cc:26 | the frame's bytes followed by a NUL are written to the front of the buffer, which must be large enough; every byte after the NUL keeps its old value |
| Car.McpCar.constructor | xiaozhi-esp32-1.7.6v1.0/main/boards/bread-compact-wifi/McpCar.cc:319 | a new bridge has sent nothing and its battery cache is 100 |
| Car.McpCar.UartWriteBytes | xiaozhi-esp32-1.7.6v1.0/main/boards/bread-compact-wifi/McpCar.cc:27 | the first `len` bytes of the buffer are appended to the UART log; the cache is unchanged |
| Car.McpCar.SendUartCommand | xiaozhi-esp32-1.7.6v1.0/main/boards/bread-compact-wifi/McpCar.cc:145-148 | exactly the one command byte is appended; the cache is unchanged |
| Car.McpCar.SendFrame | xiaozhi-esp32-1.7.6v1.0/main/boards/bread-compact-wifi/McpCar.cc:23-27 | exactly the frame's bytes are appended (the frame fits the 32-byte buffer and `strlen` finds its end) |
| Car.McpCar.AirSendCmd | xiaozhi-esp32-1.7.6v1.0/main/boards/bread-compact-wifi/McpCar.cc:21-28 | appends the Air frame whose number is the temperature clamped to [16,32] |
| Car.McpCar.FanSendCmd | xiaozhi-esp32-1.7.6v1.0/main/boards/bread-compact-wifi/McpCar.cc:31-36 | appends the Fan frame carrying the gear as given |
| Car.McpCar.LightSendCmd | xiaozhi-esp32-1.7.6v1.0/main/boards/bread-compact-wifi/McpCar.cc:39-46 | appends the Light frame whose number is the gear clamped to [1,5] |
| Car.McpCar.LockSendCmd | xiaozhi-esp32-1.7.6v1.0/main/boards/bread-compact-wifi/McpCar.cc:49-54 | appends the Lock frame carrying the value as given |
| Car.McpCar.GetBatteryLevel | xiaozhi-esp32-1.7.6v1.0/main/boards/bread-compact-wifi/McpCar.cc:336-339 | returns the cached percentage, which lies in [0,100] |
| Car.McpCar.Invoke | xiaozhi-esp32-1.7.6v1.0/main/boards/bread-compact-wifi/McpCar.cc:64-311 | the handler of each tool appends exactly `Wire(t, arg)`, a function of the tool and argument alone, so a second call appends the same bytes again; no handler changes the cache; the battery tool returns the cache, all others return true |
| Car.McpCar.InvokeTwice | xiaozhi-esp32-1.7.6v1.0/main/boards/bread-compact-wifi/McpCar.cc:64-311 | calling a tool twice with the same argument appends the same bytes twice and returns the same value both times; the cache is unchanged |
| Car.McpCar.ReceiveStep | xiaozhi-esp32-1.7.6v1.0/main/boards/bread-compact-wifi/McpCar.cc:325-330 | one receive iteration sets the cache to clamp(data[2],0,100) if and only if len is 4 and the magic bytes are AA, BB, CC; otherwise the cache is unchanged; nothing is sent; the cache stays in [0,100] |

## Left out

- UART driver set-up (`uart1_init`: baud rate, pins, driver installation). It is hardware configuration with no logic; the model's UART is the byte log `tx`.
- The FreeRTOS reader task and its never-ending loop. The model has one iteration (`ReceiveStep`); any finite run of iterations is described by `Telemetry.Replay`.
- The delays: the 100 ms read timeout, the 50 ms yield, and the battery tool's 100 ms wait.
- Car.McpCar.Invoke: the battery tool returns the cache as it is when the tool is called. In the firmware the reader may update the cache during the 100 ms wait, and that is not modelled.
- Concurrency: the reader task and the handlers both touch the cache and the UART, and the interleaving of their writes is not modelled.
- The tool registry (`McpServer::AddTool`, `PropertyList` validation, descriptions). Registration is modelled as the name lookup `Catalog.ToolByName`, proved to find exactly the registered names. Schema bounds are not enforced; every encoder is modelled for every 32-bit argument.
- `ESP_LOGI` logging and the global instance `carInstance`.
- What `uart_write_bytes` and `uart_read_bytes` do beyond handing over bytes: driver buffering, short writes and error returns. A negative or short read count is still modelled, since the receive step rejects it.
- Car.Sprintf: the local `cmd` buffer declared at McpCar.cc:23 starts with unspecified contents; the model starts it zeroed. Only the bytes up to the NUL are ever sent, and `Sprintf` leaves the rest untouched.
