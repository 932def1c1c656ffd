# Modbus-TCP ↔ DTU gateway: a Dafny model

The gateway relays bytes between one DTU and one Modbus-TCP client. A DTU is a serial-to-TCP modem in field equipment. Each peer connects to its own TCP listener. This project models three parts of the gateway and proves properties about them:

- **The frame codec** (`Frame`). `validate` recognises a complete MBAP frame: the protocol id reads 0 and the length field plus 6 equals the chunk's size. `buildError` builds the 9-byte Modbus exception reply sent to a client when no DTU is connected. That reply keeps the request's transaction, protocol and unit ids. Its length field is 3, its function code has 0x80 added, and its exception code is 0x0A ("gateway path unavailable").
- **The chunk transforms** (`Transforms`). `getPadding` zero-pads an outbound chunk to a multiple of the cipher's block size: 32 for `aes`, 8 for `des3`. `getModbusTrim` cuts a decrypted chunk back to the size its MBAP header declares.
- **The connection broker** (`Gateway`, `Pairing`). It has two slots, `dtuSocket` and `modbusSocket`. When a code pattern (`dtuCodePattern`) is configured, a DTU must send a matching registration code before it is admitted; without one it is admitted at once. Handshake timers are armed for that code, and chunks are forwarded between the slots. Each callback the code registers becomes an `Event`. These are the servers' connection handlers, the sockets' `data` and `close` listeners, and the handshake timer. `Gateway.Step` handles one event and returns the next state plus the socket actions it took (`Write`, `End`). `Gateway.Run` folds `Step` over a sequence of events.

The model is built on `Buffer`, a model of the Node `Buffer` calls the code makes (`alloc`, `readUInt8`, `readUInt16BE`, `writeUInt8`, `writeUInt16BE`, `copy`, `slice`). It keeps their clamping and the `RangeError`s they throw. A thrown error is an `Err` result. Inside a socket handler nothing catches it, so `Step` returns a `Fault`: the process stops. Bytes are integers in 0..255 (`Buffer.Byte`), not bit-vectors, so that byte arithmetic stays linear.

Details of the code that the model keeps:

- `buildError` adds 0x80 to the function code and writes the sum with `writeUInt8`, so a function code of 0x80 or more throws. Section 7 of the MODBUS Application Protocol Specification (V1.1b3) defines an exception response's function code as the request's code with its high bit set, that is `| 0x80`. `Frame.BuildErrorIsExceptionReply` proves the two agree wherever the code does not throw.
- `validate` checks no minimum length beyond the 4 or 6 bytes its two reads need.
- The AES padding block is 32 bytes, while AES's cipher block is 16. `Transforms.AesPaddingFillsCipherBlocks` shows the output is still whole AES blocks.
- The broker does not put the transforms between the sockets, and it has no timer for DTU responses. The model adds neither.
- A second Modbus client is rejected by the connection callback, which runs 100 ms after the connection is accepted. The model's `ModbusConnect` event is that callback.

## Model

| member | source | states |
|---|---|---|
| `Buffer.Alloc` | lib/modbus-tcp-gateway.js:59 | `Buffer.alloc(n)` has length n and every byte 0 |
| `Buffer.ReadUInt8` | lib/modbus-tcp-gateway.js:62 | succeeds exactly when the offset is inside the buffer, and returns the byte there |
| `Buffer.ReadUInt16BE` | lib/modbus-tcp-gateway.js:54-55 | succeeds exactly when two bytes exist at the offset; its value is those two bytes read big-endian |
| `Buffer.WriteUInt8` | lib/modbus-tcp-gateway.js:62-63 | throws for a value outside 0..255 or an offset past the end; otherwise only the byte at the offset changes, and it reads back as the value |
| `Buffer.WriteUInt16BE` | lib/modbus-tcp-gateway.js:61 | throws for a value outside 0..65535 or a field past the end; otherwise only the two bytes change, and they read back as the value |
| `Buffer.Copy` | lib/modbus-tcp-gateway.js:60 | the target keeps its length; the prefix up to the source end, the source length or the target length (whichever is least) comes from the source, and the rest is untouched |
| `Buffer.Slice` | lib/transforms.js:16 | `slice(0, end)` is the prefix of length min(end, length) |
| `Frame.Validate` | lib/modbus-tcp-gateway.js:53-56 | `Ok(true)` exactly for complete MBAP frames (protocol id 0 and length field + 6 equals the size); throws exactly when the chunk is shorter than 4 bytes, or claims protocol 0 and is shorter than 6 |
| `Frame.BuildError` | lib/modbus-tcp-gateway.js:58-65 | succeeds exactly when the request has 8 bytes and a function code below 0x80, and throws `ValueOutOfRange` for a larger code; the reply is 9 bytes: request bytes 0..3, then 0x00 0x03, the unit id, the function code + 0x80, and 0x0A |
| `Frame.BuildErrorReadsHeaderOnly` | lib/modbus-tcp-gateway.js:60-63 | requests that agree on their first 8 bytes get the same reply |
| `Frame.BuildErrorIsExceptionReply` | lib/modbus-tcp-gateway.js:58-65 | read back as an MBAP header, the reply has the request's transaction id, protocol id and unit id; its length field of 3 matches its size; its function code has the high bit set over the request's; it is a complete frame exactly when the request's protocol id is 0 |
| `Frame.BuildErrorExample` | test/index.js:54-55 | request `000100000006010120000001` gets `00010000000301810a` |
| `Transforms.BlockSize` | lib/transforms.js:53-59 | `aes` gives 32, `des3` gives 8, and every other mode has no block size |
| `Transforms.Pad` | lib/transforms.js:62-71 | with a block size, the output is a multiple of it, adds fewer than a block, starts with the chunk and adds only zero bytes; with none, the chunk passes through |
| `Transforms.PadRoundsUp` | lib/transforms.js:64-65 | the padded length is the smallest multiple of the block size not below the chunk's length |
| `Transforms.PadKeepsAligned` | lib/transforms.js:64 | a chunk already a multiple of the block size (or with no block size) is unchanged |
| `Transforms.PadIdempotent` | lib/transforms.js:64-69 | padding a padded chunk changes nothing |
| `Transforms.AesPaddingFillsCipherBlocks` | lib/transforms.js:54-55 | AES output padded to 32 is a whole number of 16-byte AES blocks and grows by fewer than 32 bytes |
| `Transforms.Trim` | lib/transforms.js:13-18 | throws exactly when the protocol id or the length field cannot be read; passes a chunk whose protocol id is not 0 through; otherwise returns the chunk's prefix of length min(size, declared size) |
| `Transforms.TrimIdempotent` | lib/transforms.js:13-18 | trimming a trimmed chunk changes nothing |
| `Transforms.TrimRecoversFrame` | lib/transforms.js:13-16 | a Modbus chunk holding at least its declared size trims to a complete frame |
| `Transforms.TrimUndoesPad` | lib/transforms.js:13-67 | for any mode, trimming a padded valid frame returns that frame |
| `Transforms.PipelineRoundTrip` | lib/transforms.js:23-49 | with any cipher whose decryption inverts its encryption, pad → encrypt → decrypt → trim returns a valid frame unchanged |
| `Gateway.SetDtuSocket` | lib/modbus-tcp-gateway.js:11-27 | the DTU slot holds the socket and the socket gains the DTU listeners; no other socket's listeners and no other part of the state change |
| `Gateway.SetModbusSocket` | lib/modbus-tcp-gateway.js:29-51 | the Modbus slot holds the socket and the socket gains the Modbus listeners; nothing else changes |
| `Gateway.Handshake` | lib/modbus-tcp-gateway.js:81-93 | the socket's listener and timer are removed; nothing is output exactly when the code matches (and, corrected, the slot is free), and then the socket takes the slot; otherwise the socket is ended and both DTU fields are unchanged; the Modbus side and the id counter are untouched |
| `Gateway.DtuData` | lib/modbus-tcp-gateway.js:17-26 | the state is unchanged; the chunk goes unchanged to the Modbus slot's socket and nowhere else, and is dropped exactly when that slot is empty |
| `Gateway.ModbusData` | lib/modbus-tcp-gateway.js:35-50 | with a DTU, the chunk goes to it unchanged; without one, the client gets `buildError(chunk)`, `buildError`'s exception escapes when it throws, and the handler fails exactly when `buildError` throws or the Modbus slot is empty; a successful call changes no state and does one write |
| `Gateway.Step` | lib/modbus-tcp-gateway.js:11-112 | an event causes at most one action; bytes are only written to the socket in a slot; only a Modbus chunk arriving while the DTU slot is empty can stop the process; only connections consume a socket id |
| `Gateway.Run` | lib/modbus-tcp-gateway.js:11-112 | a run of events yields at most one action per event, and the socket-id counter never goes back |
| `Pairing.InitInv` | lib/modbus-tcp-gateway.js:8-9 | the initial state, with both slots empty, satisfies the broker invariant and holds no DTU |
| `Pairing.StepPreservesInv` | lib/modbus-tcp-gateway.js:11-112 | every event keeps the invariant: fresh socket ids; at most one role's listeners per socket; the Modbus slot holds exactly the socket with Modbus listeners; the DTU slot holds a socket with DTU listeners |
| `Pairing.RunPreservesInv` | lib/modbus-tcp-gateway.js:11-112 | the same invariant holds after any run of events |
| `Pairing.RejectsDtuWhileOccupied` | lib/modbus-tcp-gateway.js:69-71 | a DTU connecting while the slot is full is ended, and nothing else changes (the existing DTU stays) |
| `Pairing.RejectsModbusWhileOccupied` | lib/modbus-tcp-gateway.js:105-107 | a Modbus client connecting while the slot is full is ended, and nothing else changes |
| `Pairing.PromotesWithoutCode` | lib/modbus-tcp-gateway.js:95-98 | with no code pattern, a DTU connecting to an empty slot fills it at once, with no output |
| `Pairing.ModbusRequestWithoutDtu` | lib/modbus-tcp-gateway.js:41-48 | with no DTU, a Modbus chunk is answered on the same connection with `buildError(chunk)` and nothing else happens; a chunk `buildError` throws on stops the process |
| `Pairing.ModbusRequestWithDtu` | lib/modbus-tcp-gateway.js:36-40 | with a DTU, a Modbus chunk is written to the DTU unchanged, with nothing written back and no state change |
| `Pairing.DtuReplyForwarded` | lib/modbus-tcp-gateway.js:17-26 | a chunk from a paired DTU is written unchanged to the Modbus client, or dropped if there is none |
| `Pairing.HandshakeConsumesFirstChunk` | lib/modbus-tcp-gateway.js:81-93 | the first DTU chunk is never forwarded, and its listener and timer are removed; the socket takes the slot exactly when the code matches (in the corrected revision, only if the slot is empty); otherwise it is ended and the slot is left as it was |
| `Pairing.CodeTimeoutEndsSocket` | lib/modbus-tcp-gateway.js:75-80 | the handshake timer ends its socket and leaves the DTU slot and listeners as they were; as written the socket keeps its handshake listener, corrected it loses it |
| `Pairing.CloseEmptiesSlot` | lib/modbus-tcp-gateway.js:13-34 | a `close` on the socket in either slot empties that slot and removes all of its listeners; a socket without DTU listeners leaves the DTU slot alone |
| `Pairing.EndedSocketsAreUnpaired` | lib/modbus-tcp-gateway.js:69-111 | in the state right after the step that ends a socket, that socket carries no forwarding listeners (a later chunk can still promote it as written: see `Pairing.TimedOutDtuPromotedAsWritten`) |
| `Pairing.FaultsOnlyFromBuildError` | lib/modbus-tcp-gateway.js:41-63 | among the modelled events, the process stops exactly when the DTU slot is empty and the Modbus client sends a chunk `buildError` throws on |
| `Pairing.SilentDtuTimesOut` | test/index.js:40-49 | a DTU that sends nothing is ended by the timer and never takes the slot |
| `Pairing.ModbusAloneGetsException` | test/index.js:51-68 | a lone Modbus client gets `buildError` of its request back |
| `Pairing.RegisteredDtuRelays` | test/index.js:70-112 | after a matching registration, the request reaches the DTU unchanged and the DTU's reply reaches the client unchanged; the code is never forwarded |
| `Pairing.AsWrittenHandshakeDisplaces` | lib/modbus-tcp-gateway.js:81-87 | as written, a matching handshake while another DTU is in the slot takes the slot, and both DTUs keep their listeners |
| `Pairing.TwoHandshakesAsWritten` | lib/modbus-tcp-gateway.js:73-93 | concrete run: two DTUs register at once and the first disconnects; the slot is then empty while the second is still live, so the Modbus client gets an exception reply and also the second DTU's data |
| `Pairing.CorrectedStepKeepsPairing` | lib/modbus-tcp-gateway.js:81-91 | with the slot rechecked at promotion, every event keeps exactly the slot's socket as the DTU socket with listeners |
| `Pairing.CorrectedRunKeepsPairing` | lib/modbus-tcp-gateway.js:67-100 | the same holds after any run of the corrected revision |
| `Pairing.TimedOutDtuPromotedAsWritten` | lib/modbus-tcp-gateway.js:75-93 | concrete run: a DTU is ended by the handshake timer, then sends a matching code; as written the ended socket takes the DTU slot |
| `Pairing.StepKeepsRetired` | lib/modbus-tcp-gateway.js:11-112 | a socket with no slot, listener or timer never regains one, in either revision: ids are not reused and only sockets awaiting their code are promoted |
| `Pairing.RunKeepsRetired` | lib/modbus-tcp-gateway.js:11-112 | the same over any run of events |
| `Pairing.CorrectedEndRetires` | lib/modbus-tcp-gateway.js:67-111 | with the corrected timer, every socket a step ends holds no slot, listener or timer afterwards |
| `Pairing.CorrectedEndedStayRetired` | lib/modbus-tcp-gateway.js:67-111 | in any corrected run, every socket the gateway ended is still out of the gateway at the end, so an ended DTU is never promoted |

## Findings

| source | as written | input that shows it | evidently intended | confidence | as-written member | corrected member |
|---|---|---|---|---|---|---|
| lib/modbus-tcp-gateway.js:81-87 | the one-shot handshake listener calls `setDtuSocket` on a matching code without checking that `dtuSocket` is still null. The `close` listener of every DTU socket then sets `dtuSocket = null`, whichever socket is in the slot | two DTUs connect while the slot is empty (both enter the handshake) and both send a matching code; the first then disconnects | only one DTU is live at a time. A DTU completing its handshake while the slot is full is ended, as one connecting while it is full is | medium, not executed | `Pairing.TwoHandshakesAsWritten` | `Pairing.CorrectedRunKeepsPairing` |
| lib/modbus-tcp-gateway.js:75-86 | the handshake timer calls `socket.end()` but leaves the `once('data')` listener installed. A chunk that still arrives runs the handshake, and `setDtuSocket` puts the ended socket into the slot | a DTU connects and sends nothing until the timer fires, then sends a matching code before its connection closes | a DTU the timer ends takes no further part: the timeout also removes the handshake listener | low (the chunk must arrive between the gateway's `end()` and the close), not executed | `Pairing.TimedOutDtuPromotedAsWritten` | `Pairing.CorrectedEndedStayRetired` |

`Gateway.Step` takes a `Revision`. `AsWritten` is the code. `Corrected` makes two changes. `Gateway.Handshake` rechecks the slot, and the handshake timer also removes the socket's handshake listener. Every per-event property in the table is proved for both revisions, except where a row names one.

## Left out

- Transport: `net.createServer`, `listen`, the socket objects and their event wiring are replaced by `Event`s and `Action`s. A socket `error` event is not modelled. The code installs no `error` listener, so in Node an `error` on any socket stops the process with an uncaught exception. Two causes are a peer reset (`ECONNRESET`) and a write to a socket the gateway has already ended. The model's `Fault` covers only the exceptions its handlers throw.
- Timing: the handshake timer's duration (`dtuCodeTimeout`) and the 100 ms delay before a Modbus connection is handled are not modelled. The timer firing and the delayed callback are discrete events (`CodeTimeout`, `ModbusConnect`).
- The registration check: `new RegExp(dtuCodePattern)`, the UTF-8 decoding and `.test` are a `CodeMatcher` predicate in the configuration. An empty pattern, like an absent one, means no handshake.
- A write to a socket the gateway has already ended is an ordinary `Write` in the model. In Node it raises the unhandled `error` described above. As written, the late promotion in the second finding leads there: Modbus requests are then written to the ended DTU socket.
- Logging and the `debug` tracing: they do not change behaviour.
- Transforms.PipelineRoundTrip: `getCipher` and `getDecipher` wrap Node's AES-128-CBC and Triple-DES. The lemma takes any cipher pair whose decryption inverts its encryption instead of those primitives, because their code is not available.
- `validate` is defined but never called by the gateway. It is modelled on its own.
- Stream plumbing of the transforms: only each `transform` callback's body is modelled, as a function from one chunk to the next.
