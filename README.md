# MCPHA server model

A Dafny model of the command server of the Red Pitaya multichannel pulse-height
analyser (MCPHA). The server maps the FPGA's register windows into memory, accepts
one WebSocket client, and handles 16-byte binary commands: a u32 code, a u32 channel
and a float64 value. Each command does one of two things:

- it read-modify-writes the control-bit registers `m_Rst[0..3]`, stores a typed
  setting into the configuration page, or selects the trigger source in the trigger
  page;
- it copies a snapshot (a timer value, a histogram, the scope status word, or an
  unwrapped scope waveform) into a response buffer and sends it to the client.

The model is split into these modules:

- `Bytes` (bytes.dfy):
  - raw memory as sequences of bytes;
  - little-endian encoding;
  - conversion of a number to an unsigned C integer of n bytes (modulo 256^n; C++
    leaves an out-of-range conversion undefined, so there the modulo is the model's choice);
  - the `memcpy` copy, as a function and as a method on arrays.
- `Registers` (registers.dfy):
  - the register map, with its window sizes, control bits, and the offsets and
    widths of the settings;
  - bus writes;
  - `Replay`, which gives the register contents after a series of writes.
- `Snapshot` (snapshot.dfy):
  - the four responses, each a 4-byte tag followed by a payload;
  - the scope read: the start slot from the status word, and the one- or two-run
    copy split at slot 0x7FFFFF.
- `Commands` (commands.dfy):
  - the dispatch table (`Decode`) from a command to an action, the bus writes of an
    action (`Writes`) and the reply to a read;
  - one lemma per command code stating its effect.
- `Session` (session.dfy): the one-client gate that the connect and disconnect
  slots maintain.
- `McphaServer` (server.dfy): the `Server` class.
  - Its hardware windows are arrays, the response buffers are arrays (the scope
    buffer is reallocated on resize), and the outbox of sent messages and the
    sockets closed on arrival are sequences.
  - Its methods are the constructor's register setup, the message handler and the
    two session slots.
  - Each method that stores to a register states the bus writes it issued
    (`Issued`): the registers afterwards are the registers before with those writes
    replayed. What those writes do is proved about `Replay` in `Commands` and
    `Registers`.

Two details of server.cpp decide the shape of the model:

- **Resets 0–3 end with their bits set.** Commands 0–3 clear the reset bits and then
  set them (server.cpp:144-145), so the bits end set. Only command 21 (start scope)
  sets its bit and then clears it (server.cpp:415-416), so that bit ends cleared.
- **The wrap test and the split of a scope read use 0x7FFFFF, one below the buffer
  size of 2^23** (server.cpp:436-445). A read that reaches slot 0x7FFFFF continues at
  slot 0: sample k comes from slot start + k while that is below 0x7FFFFF, and from
  slot start + k − 0x7FFFFF once start + k reaches 0x7FFFFF. A read of at most
  0x7FFFFF samples never takes slot 0x7FFFFF (`Snapshot.ScopeSplitBoundaries`). A read of 2^23 samples starting at slot 0x7FFFFF
  takes its first sample from slot 0 and its last from slot 0x7FFFFF.

## Model

| member | source | states |
|---|---|---|
| Bytes.Wrap | server.cpp:182 | storing a number into an n-byte unsigned field keeps it modulo 256^n; the result fits the field |
| Bytes.WrapU16InRange | server.cpp:74 | a value that fits in a u16 is stored unchanged |
| Bytes.WrapU32InRange | server.cpp:77-79 | a value that fits in a u32 is stored unchanged |
| Bytes.WrapPredecessor | server.cpp:429-430 | storing v − 1 in a u32 and adding one back in u32 arithmetic yields v modulo 2^32 |
| Bytes.Le | server.cpp:328 | the little-endian bytes of a value have the requested width |
| Bytes.Unle | server.cpp:135-136 | the value read from n little-endian bytes is below 256^n |
| Bytes.UnleLe | server.cpp:429-430 | a value that fits in n bytes, stored little-endian in n bytes, reads back as itself |
| Bytes.LeUnle | server.cpp:135-136 | re-encoding the value read from some bytes gives back those bytes |
| Bytes.Overwrite | server.cpp:329 | a copy into memory keeps the memory's length |
| Bytes.OverwriteBytes | server.cpp:329 | after a copy the destination range holds the source and every other byte keeps its value |
| Bytes.OverwriteOutside | server.cpp:182 | a copy leaves any range that does not overlap it unchanged |
| Bytes.OverwriteAdjacent | server.cpp:444-445 | two adjacent copies are the same as one copy of their concatenation |
| Bytes.Memcpy | server.cpp:438 | the destination array afterwards is its old contents with the source copied in at the offset |
| Registers.ClearBitsPerBit | server.cpp:144 | after `&= ~m`, every bit that m selects is 0 and every other bit is as before |
| Registers.SetBitsPerBit | server.cpp:145 | after `\|= m`, every bit that m selects is 1 and every other bit is as before |
| Registers.Width | server.cpp:236-295 | every setting is 2, 4 or 8 bytes wide |
| Registers.Offset | server.cpp:179-411 | every setting lies past the four control bytes and inside the first 82 bytes of the page |
| Registers.FieldsDisjoint | server.cpp:236-295 | no two settings share a byte |
| Registers.Load | server.cpp:429-430 | a setting reads back as an unsigned value of its width |
| Registers.FieldWrite | server.cpp:182 | a setting store writes, at the setting's offset, as many bytes as the setting is wide; those bytes hold the value converted to that width |
| Registers.FieldWriteSets | server.cpp:241 | a setting store stays inside the page, the setting reads back as the converted value, and no control register or trigger word changes |
| Registers.FieldWriteKeeps | server.cpp:241 | a setting store leaves every other setting as it was |
| Registers.LoadAfterFieldWrite | server.cpp:236-295 | a setting store sets exactly that setting and leaves every other setting, control register and trigger word as it was |
| Registers.ApplyCtrlWrite | server.cpp:144-145 | a control-register store replaces that one byte of the page |
| Registers.ReplayAppend | server.cpp:144-145 | replaying two series of writes in turn is the same as replaying them joined |
| Snapshot.Frame | server.cpp:328-329 | a response is 4 + the payload's length bytes; its first four bytes read as the tag and the rest is the payload |
| Snapshot.TimerReply | server.cpp:322-339 | a timer read replies with 12 bytes tagged with the channel; the payload is the 8 bytes at status offset 12 (channel 0) or 20 (channel 1) |
| Snapshot.HistogramReply | server.cpp:340-357 | a histogram read replies with 4 + 65536 bytes tagged 2 + channel; the payload is the whole histogram window |
| Snapshot.StatusReply | server.cpp:418-425 | a status read replies with 8 bytes tagged 4; the payload is the status word at offset 44 |
| Snapshot.ScopePre | server.cpp:429 | the pre-trigger count is the stored value plus one, a u32 |
| Snapshot.ScopeTotal | server.cpp:430 | the sample total is the stored value plus one, a u32 |
| Snapshot.ScopeStatus | server.cpp:431 | the status word is a u32 |
| Snapshot.ScopeStart | server.cpp:431-433 | the start slot always lies in [0, 2^23) |
| Snapshot.ScopeStartIsModular | server.cpp:431-433 | the start slot is (status >> 1) − pre, taken modulo 2^23 |
| Snapshot.ScopeWindow | server.cpp:436-446 | the scope payload holds exactly tot samples |
| Snapshot.ScopeWindowSamples | server.cpp:436-446 | sample k of the payload is the whole 4-byte sample at slot start + k, or at slot start + k − 0x7FFFFF once start + k reaches 0x7FFFFF |
| Snapshot.SlotsAreConsecutive | server.cpp:436-446 | for k + 1 < 0x7FFFFF, samples k and k + 1 of a read come from consecutive slots of a ring of 0x7FFFFF slots |
| Snapshot.ScopeSplitBoundaries | server.cpp:436-446 | a read of at most 0x7FFFFF samples never takes slot 0x7FFFFF; a read starting at 0x7FFFFF begins at slot 0; a read ending at 2^23 takes its last sample from slot 0; a read of 2^23 samples from slot 0x7FFFFF takes its last sample from slot 0x7FFFFF; a read of at most 0x7FFFFF samples from slot 0 takes slots 0.. in order |
| Snapshot.ScopeReply | server.cpp:426-448 | a scope read replies with 4 + 4·tot bytes tagged 5; the payload is the unwrapped window of tot samples from the start slot computed from the status word and pre |
| Commands.ParseCommand | server.cpp:135-137 | code and channel are the first two little-endian u32 words; the value is passed through |
| Commands.ParseCommandHeader | server.cpp:135-136 | the server reads back the code and channel a client wrote |
| Commands.Decode | server.cpp:139-448 | a command is ignored exactly when its code is above 23, or it is per-channel with a channel other than 0 and 1; it is a read exactly for codes 22 and 23, or codes 13 and 14 on channel 0 or 1; code 20 stores the total count of the value given |
| Commands.WritesFit | server.cpp:139-417 | no write a command issues falls outside the configuration or trigger page |
| Commands.Reply | server.cpp:322-448 | each read sends one message with its tag (timer 0/1, histogram 2/3, status 4, scope 5) and its length (12, 4 + 65536, 8, 4 + 4·tot); the payload is the 8 timer bytes at status offset 12 or 20, the channel's histogram window, the status word at offset 44, or the unwrapped scope window |
| Commands.PulseEndsSet | server.cpp:144-145 | clear-then-set leaves the bits set and the other bits as they were |
| Commands.StrobeEndsClear | server.cpp:415-416 | set-then-clear leaves the bits cleared and the other bits as they were |
| Commands.Raised | server.cpp:144-145 | a pulsed control byte has the pulsed bits set and its other bits unchanged |
| Commands.PulseReplay | server.cpp:144-145 | a pulse issues a clear, then a set, of that register, and changes only that byte |
| Commands.PulseEffect | server.cpp:144-145 | a pulse drives the bits low, then high; they end set, and nothing else changes |
| Commands.StrobeReplay | server.cpp:415-416 | a strobe issues a set, then a clear, of that register, and changes only that byte |
| Commands.StrobeEffect | server.cpp:415-416 | a strobe drives the bits high, then low; they end cleared, and nothing else changes |
| Commands.FlagEffect | server.cpp:189-196 | value 0 clears exactly the flag bit, value 1 sets exactly that bit, any other value writes nothing |
| Commands.StoreEffect | server.cpp:182 | a setting store writes only that setting; every other setting, every byte outside it and the trigger page are unchanged |
| Commands.ControlWriteKeepsSettings | server.cpp:144 | a control-register store changes no setting |
| Commands.ControlActionKeepsSettings | server.cpp:139-235 | pulses, strobes and flags change no setting |
| Commands.KeepsTotalCount | server.cpp:406-411 | only command 20 changes the stored total count |
| Commands.ResetTimerCommand | server.cpp:139-152 | code 0 pulses bit 2 of the channel's control register |
| Commands.ResetHistogramCommand | server.cpp:153-166 | code 1 pulses bit 1 of the channel's control register |
| Commands.ResetScopeCommand | server.cpp:167-172 | code 2 pulses bits 1 and 2 of `m_Rst[2]`, whatever the channel |
| Commands.ResetGeneratorCommand | server.cpp:173-178 | code 3 pulses bit 128 of `m_Rst[3]`, whatever the channel |
| Commands.StartScopeCommand | server.cpp:412-417 | code 21 strobes bit 16 of `m_Rst[2]`, which ends cleared |
| Commands.NegatorCommand | server.cpp:184-209 | code 5 clears or sets bit 16 of the channel's control register on value 0 or 1 |
| Commands.AutoBaselineCommand | server.cpp:210-235 | code 6 does the same with bit 4 |
| Commands.TimerRunCommand | server.cpp:296-321 | code 12 does the same with bit 8 |
| Commands.TriggerSlopeCommand | server.cpp:372-383 | code 16 does the same with bit 4 of `m_Rst[2]` |
| Commands.TriggerModeCommand | server.cpp:384-395 | code 17 does the same with bit 8 of `m_Rst[2]` |
| Commands.SampleRateCommand | server.cpp:179-183 | code 4 stores only the 16-bit sample rate at offset 4 |
| Commands.BaselineCommand | server.cpp:236-247 | code 7 stores only the channel's 16-bit baseline (offset 16 or 32) |
| Commands.PhaDelayCommand | server.cpp:248-259 | code 8 stores only the channel's 16-bit PHA delay (offset 18 or 34) |
| Commands.PhaMinCommand | server.cpp:260-271 | code 9 stores only the channel's 16-bit PHA minimum (offset 20 or 36) |
| Commands.PhaMaxCommand | server.cpp:272-283 | code 10 stores only the channel's 16-bit PHA maximum (offset 22 or 38) |
| Commands.TimerSettingCommand | server.cpp:284-295 | code 11 stores only the channel's 64-bit timer (offset 8 or 24) |
| Commands.TriggerLevelCommand | server.cpp:396-400 | code 18 stores only the 16-bit trigger level at offset 80 |
| Commands.PreCountCommand | server.cpp:401-405 | code 19 stores only value − 1 as the 32-bit pre-trigger count at offset 72 |
| Commands.TotalCountCommand | server.cpp:406-411 | code 20 stores only value − 1 as the 32-bit total count at offset 76 |
| Commands.TriggerSourceEffect | server.cpp:363-369 | selecting a trigger source writes the channel to word 16, then 2 to word 0, and changes nothing else |
| Commands.TriggerSourceCommand | server.cpp:358-371 | code 15 issues exactly those two trigger writes and leaves the configuration page unchanged |
| Commands.IgnoredCommands | server.cpp:139-448 | an unknown code, or a per-channel code with a channel other than 0 and 1, writes nothing and is not a read |
| Commands.ReadCommandsWriteNothing | server.cpp:322-448 | read commands write no register |
| Commands.ReadTimerCommand | server.cpp:322-339 | code 13 with channel 0 or 1 is a timer read, and its reply is the channel's timer reply |
| Commands.ReadHistogramCommand | server.cpp:340-357 | code 14 with channel 0 or 1 is a histogram read, and its reply is the histogram reply of that channel's window |
| Commands.ReadStatusCommand | server.cpp:418-425 | code 22, for any channel, is a status read, and its reply is the status reply |
| Commands.ReadScopeCommand | server.cpp:426-448 | code 23, for any channel, is a scope read, and its reply is the scope reply |
| Commands.PreCountRoundTrip | server.cpp:401-430 | after command 19 with value v, a scope read uses pre = v modulo 2^32 |
| Commands.TotalCountRoundTrip | server.cpp:406-430 | after command 20 with value v, a scope read uses tot = v modulo 2^32, and pre is unchanged |
| Commands.ScopeCountsRoundTrip | server.cpp:401-430 | commands 19 then 20: a scope read uses the two counts the client sent, modulo 2^32 |
| Commands.ScopeTotalAfterResize | server.cpp:406-438 | after command 20 with a count up to 2^23, a scope read takes exactly that many samples, and the resized buffer holds exactly 4 + 4·count bytes |
| Session.Connect | server.cpp:460-474 | a pending socket is closed exactly when a client is bound and the socket is not null, and the binding is then unchanged; otherwise the pending socket (or null) becomes the binding |
| Session.Disconnect | server.cpp:478-487 | the gate becomes empty exactly when it was empty or the bound client itself disconnects; otherwise the binding is unchanged |
| Session.SecondClientRejected | server.cpp:464-473 | a second client arriving while the first is bound is closed, and the first stays bound |
| Session.ReconnectAfterDisconnect | server.cpp:460-487 | after the bound client disconnects, the next client is accepted |
| Session.BoundClientKeepsSession | server.cpp:460-487 | a bound client stays bound through any sequence of other connections and other sockets' disconnects, except a newConnection signal with no pending socket (which unbinds it) |
| McphaServer.StoreStep | server.cpp:74 | one store of a default sets that setting and leaves the control bytes, the other settings and the trigger page unchanged |
| McphaServer.InitStoresEffect | server.cpp:73-79 | the constructor's stores set the rate to 125 and the counts to 4999 and 65535, and change nothing else |
| McphaServer.DefaultScopeCounts | server.cpp:76-79 | those counts make a scope read take 5000 samples before the trigger and 65536 in all |
| McphaServer.InitResetsReadControlBytes | server.cpp:85-93 | the constructor's resets depend only on the three control bytes they pulse |
| McphaServer.InitResetsReplay | server.cpp:85-93 | the constructor's resets raise bits 1 and 2 of `m_Rst[0]`, `m_Rst[1]` and `m_Rst[2]`, and change nothing else |
| McphaServer.InitTriggerWrites | server.cpp:81-83 | the constructor selects trigger source 0: word 16 gets 0, then word 0 gets 2 |
| McphaServer.ConfiguredEffect | server.cpp:73-83 | before its resets, the constructor has stored the three defaults, selected trigger 0 and changed nothing else |
| McphaServer.BootedStages | server.cpp:73-93 | the constructor's writes are the stores and trigger selection followed by the resets |
| McphaServer.ResetsFrom | server.cpp:85-93 | after the resets, the reset bits are raised relative to the starting bytes, the generator register is as it was, and no setting changed |
| McphaServer.InitSettings | server.cpp:73-79 | after the constructor: sample rate 125, pre 5000, tot 65536, every other setting as it was |
| McphaServer.InitControls | server.cpp:81-93 | after the constructor: the channel and scope reset bits are raised, `m_Rst[3]` is as it was, word 16 is 0 and word 0 is 2 |
| McphaServer.PulseReadsOwnByte | server.cpp:86-93 | a pulse depends only on the byte it pulses |
| McphaServer.ResetLog | server.cpp:85-93 | the resets issued one after another equal the constructor's reset writes computed on the starting page |
| McphaServer.InitLog | server.cpp:73-93 | the stores, trigger selection and resets issued one after another equal the constructor's writes computed on the starting page |
| McphaServer.TotalCountStored | server.cpp:409 | storing n − 1 as the total count makes a scope read take n samples, for n up to 2^23 |
| McphaServer.ScopeTotalAfter | server.cpp:139-417 | only command 20 changes the length of a scope read, and for a count from 0 to 2^23 it sets it to the count given |
| McphaServer.FillFrame | server.cpp:421-423 | the response buffer holds the tag, then the payload |
| McphaServer.FillScope | server.cpp:434-446 | the scope buffer holds tag 5, then tot samples from the start slot, copied in one run or two |
| McphaServer.FillSplitFrame | server.cpp:441-446 | a response filled in two runs holds the tag, then both runs, in order |
| McphaServer.Server.constructor | server.cpp:74-105 | the registers are the constructor's writes replayed over the starting registers; the four buffers are fresh, with the scope buffer 4 + 4·65536 bytes; no client is bound; a scope read fits the scope buffer |
| McphaServer.Server.Boot | server.cpp:73-93 | issues exactly the constructor's register writes, in order |
| McphaServer.Server.WriteCtrl | server.cpp:144 | one control-register store, replacing that byte |
| McphaServer.Server.StoreCfg | server.cpp:182 | one setting store; the control bytes are unchanged |
| McphaServer.Server.WriteTrg | server.cpp:363 | one trigger-word store |
| McphaServer.Server.PulseBits | server.cpp:144-145 | issues the pulse's two writes and leaves the byte with those bits raised |
| McphaServer.Server.StrobeBits | server.cpp:415-416 | issues the strobe's two writes |
| McphaServer.Server.StoreRateAndCounts | server.cpp:73-79 | issues the three stores in order and leaves the control bytes unchanged |
| McphaServer.Server.ResetChannelsAndScope | server.cpp:85-93 | issues the constructor's three reset pulses |
| McphaServer.Server.FlagBits | server.cpp:189-196 | issues the flag's write: a clear on 0, a set on 1, nothing otherwise |
| McphaServer.Server.SelectTrigger | server.cpp:363-369 | issues the trigger selection's two writes |
| McphaServer.Server.Transmit | server.cpp:330 | appends the buffer's bytes, addressed to the bound client, to the outbox |
| McphaServer.Server.SendTimer | server.cpp:322-339 | fills the timer buffer with the timer reply and sends it; nothing else of the server changes |
| McphaServer.Server.SendHistogram | server.cpp:340-357 | fills the histogram buffer with the histogram reply and sends it |
| McphaServer.Server.SendStatus | server.cpp:418-425 | fills the status buffer with the status reply and sends it |
| McphaServer.Server.SendScope | server.cpp:426-448 | fills the scope buffer with the scope reply and sends it |
| McphaServer.Server.ResizeScopeBuffer | server.cpp:410 | the scope buffer becomes 4 + 4·count bytes (none if negative) and keeps its leading bytes |
| McphaServer.Server.Execute | server.cpp:139-417 | a command that is not a read issues exactly its writes; command 20 also resizes the scope buffer, and for a count from 0 to 2^23 a scope read then fits it |
| McphaServer.Server.Respond | server.cpp:322-448 | a read sends exactly its reply to the bound client and changes no register |
| McphaServer.Server.OnBinaryMessage | server.cpp:129-449 | the registers afterwards are the command's writes replayed; a read appends exactly its reply to the outbox and anything else sends nothing; only command 20 replaces the scope buffer; the session and the hardware read windows are untouched |
| McphaServer.Server.OnNewConnection | server.cpp:460-474 | the gate follows `Connect`, and a pending socket rejected while a client is bound is recorded as closed |
| McphaServer.Server.OnDisconnected | server.cpp:478-487 | the gate follows `Disconnect` |

## Left out

- Opening `/dev/mem` and mapping the register windows (server.cpp:46-64): the windows are given to the constructor as arrays of the mapped sizes.
- The Zynq clock and HP0 bus setup through `slcr` and `axihp0` (server.cpp:52-53, 67-71): hardware side effects only.
- The Qt WebSocket server: listening, signal and slot wiring, `on_WebSocketServer_closed` and `qApp->quit`, `deleteLater`. `sendBinaryMessage` is modelled as an append to `outbox`, and a socket as an opaque number.
- The float64 command value: it is modelled as the integer it holds. The tests `data == 0` and `data == 1` become integer equality. The double-to-integer conversion of a store (including the `data - 1` of commands 19 and 20) is modelled as conversion of that integer to the setting's width, modulo 2^(8n). C++ leaves that conversion undefined when the value does not fit the unsigned type (for example `data - 1 = -1.0` for command 19 or 20 with value 0, server.cpp:404 and 409); for such values the modulo result is the model's choice, not the program's behaviour, and so is the "modulo 2^32" in `Commands.PreCountRoundTrip`, `Commands.TotalCountRoundTrip` and `Commands.ScopeCountsRoundTrip`. The resize size `4 + data * 4` of command 20 is computed on unbounded integers, and a negative size gives an empty buffer.
- Asynchronous hardware updates of the status, histogram and scope windows, and `volatile` semantics: window contents are whatever the arrays hold when a read happens.
- The destructor and heap management (server.cpp:117-125).
- McphaServer.Server.OnBinaryMessage: it requires a message of at least 16 bytes, since the source reads 16 bytes without checking the length.
- McphaServer.Server.OnBinaryMessage: a read requires a bound client, since the source calls through `m_WebSocket` without a null test.
- McphaServer.Server.OnBinaryMessage: a scope read requires a stored total of at most 2^23 and a scope buffer of 4 + 4·total bytes. The u32 overflow of `start + tot` and a copy past a buffer's end are undefined behaviour and are not modelled.
- McphaServer.Server.ResizeScopeBuffer: it always allocates a fresh array, where `QByteArray::resize` may reuse its storage. Bytes past the old end are left unspecified, and the `int` overflow of a very large size is not modelled.
- Registers.Apply: a write outside its page is defined as no change, rather than as undefined. `Commands.WritesFit` shows that the server issues no such write.
