# ESC/POS printer driver: status poller and command encoders

This project models the core of an Arduino driver for an Epson-style thermal
receipt printer (`EscPosPrinter`), in Dafny, and proves properties of it.

- **Status poller** (`getStatus`): a non-blocking, tick-driven state machine.
  The caller calls it over and over. It sends the ESC/POS real-time status
  requests DLE EOT n (`10 04 n`) for the online status (n = 1), the offline
  cause (n = 2) and the chute sensor (n = 5). It waits through a grace period,
  then takes at most one reply byte per call into the caller's three-byte
  array. It returns the caller's code unchanged (no progress), that code plus
  one (a pass finished), or `-99` (no reply within 200 ms).
- **Receive-buffer flush** (`clearRxBuffer`) and the **paper check**
  (`hasPaper`, GS r 1 with at most ten polls).
- **Command encoders**: `write`, `justify`, the two `setSize`s and
  `underlineOn`, modelled as the byte sequences they send.

Layout:

- `commands.dfy`, module `Commands`: the encoders and the query byte strings.
- `serial.dfy`, module `Serial`: the port. It has a receive queue `rx` and a
  transmit log `tx`. `Deliver` stands for the device's replies, which arrive
  between driver calls.
- `poller.dfy`, module `Poller`: `Poll` is one `getStatus` call as a function
  on a `Snapshot`. The snapshot holds the stage, the timestamp, the status
  bytes, `rx` and `tx`. `Run` is the caller's loop over a list of ticks. The
  lemmas state the per-stage behaviour and whole passes.
- `printer.dfy`, module `Printer`: class `EscPosPrinter` with the fields
  `statusState` and `statusTs`. Its methods `GetStatus`, `ClearRxBuffer` and
  `HasPaper` update the object and the port in place. `GetStatus` is proved
  to be exactly `Poll`.

Inputs from outside the driver are parameters:

- `millis()` is `now: uint32`.
- The verdict of `waitCase` is `graceOver: bool`. `waitCase` lives in
  `tools.h`, which is not part of this model.
- Bytes arriving from the printer are the `arrivals` of each tick, or
  `Port.Deliver` calls.

After the offline-cause byte the code resets `statusState` to 0
(`EscPosPrinter.cpp:379-381`) and does not go on to the chute query. So on the
fault path the chute byte is never asked for and stays zero
(`Poller.FaultPass`). The next call starts a new pass.

The 200 ms timeout runs from the moment the query was sent. `statusTs` is set
when the query goes out, so the window includes the grace period.

## Model

| member | source | states |
|---|---|---|
| `Poller.Poll` | EscPosPrinter.cpp:316-427 | The result is the input code, the input code + 1, or -99. A changed code means the stage is back at 0. A valid stage stays in {0,1,2,3,4,10,11,12}, and the per-pass invariant on the result bytes is kept. Stage 0 empties the receive queue; every other stage consumes at most one byte. Result bytes change only at stage 0 or by a consumed byte. At most one of the three queries is sent, and the timestamp changes exactly when one is. A wait stage with no byte past 200 ms gives -99 and changes only the stage, and -99 comes from nowhere else. |
| `Poller.Run` | EscPosPrinter.cpp:316-427 | Over any sequence of calls with replies arriving in between, valid stages and the per-pass invariant (OK path: error byte 0; fault path: chute byte 0) are kept. |
| `Poller.Elapsed` | EscPosPrinter.cpp:357 | `millis() - statusTs` in uint32_t is the true elapsed time when the clock has not wrapped, and the time plus 2^32 when it has. |
| `Poller.WaitCase` | EscPosPrinter.cpp:335 | A grace stage either stays or advances by exactly one. |
| `Poller.StartBeginsPass` | EscPosPrinter.cpp:321-330 | Stage 0 empties the receive queue, zeroes the three result bytes, sends 10 04 01, records `now`, moves to stage 1 and returns the input code. |
| `Poller.OkReplyGoesToChute` | EscPosPrinter.cpp:341-349 | Reply 0x16 at stage 2 is stored in byte 0 and leads to stage 10. No error query is sent, the timestamp is kept, and the input code is returned. |
| `Poller.FaultReplyQueriesError` | EscPosPrinter.cpp:350-355 | Any other reply at stage 2 is stored in byte 0. Then 10 04 02 is sent, the clock is recorded, and the stage becomes 3. |
| `Poller.ChuteQuerySent` | EscPosPrinter.cpp:392-398 | Stage 10 sends 10 04 05, records the clock, moves to 11, and leaves results and receive queue alone. |
| `Poller.CompletedPassResults` | EscPosPrinter.cpp:372-423 | A call that returns input + 1 consumed one byte, sent nothing and went back to stage 0. Either it came from stage 4 after a non-OK online byte (results: online, cause, 0) or from stage 12 (results: 0x16, 0, chute). |
| `Poller.ReplyEndsPass` | EscPosPrinter.cpp:374-423 | At stage 4 or 12 a waiting reply byte is always consumed: it becomes the error byte (stage 4) or the chute byte (stage 12). Nothing is sent, the timestamp is kept, the call returns the input code + 1, and the stage goes back to 0. |
| `Poller.QuietTickIsNoOp` | EscPosPrinter.cpp:339-423 | With no byte, no timeout and no end of grace, a call outside stages 0 and 10 changes nothing and returns the input code. |
| `Poller.QuietTicksAreNoOps` | EscPosPrinter.cpp:316-427 | Any number of such quiet calls in a row change nothing and keep returning the same code. |
| `Poller.TimeoutThenFreshStart` | EscPosPrinter.cpp:357-362 | A timed-out wait returns -99 and leaves the results as they were. The next call behaves as a fresh start. |
| `Poller.OkPass` | EscPosPrinter.cpp:316-427 | A healthy pass ends with results [0x16, 0, chute] and returns code + 1. Only 10 04 01 and 10 04 05 are sent, and stale bytes in the queue at the start are never taken as a reply. |
| `Poller.FaultPass` | EscPosPrinter.cpp:316-427 | A non-OK online byte then a cause byte ends with results [online, cause, 0] and returns code + 1. Only 10 04 01 and 10 04 02 are sent. |
| `Poller.SilentPass` | EscPosPrinter.cpp:316-427 | If the printer never answers, the pass returns -99 with the results still zeroed, and only 10 04 01 is sent. |
| `Printer.EscPosPrinter.GetStatus` | EscPosPrinter.cpp:316-427 | The new stage, timestamp, caller's array, receive queue and transmit log, and the returned code, are exactly those of `Poll`. |
| `Printer.EscPosPrinter.ClearRxBuffer` | EscPosPrinter.cpp:429-439 | Reads exactly the bytes that were waiting, so the queue ends empty, and sends nothing. |
| `Printer.EscPosPrinter.HasPaper` | EscPosPrinter.cpp:297-314 | Sends 1D 72 01 and polls at most ten times, reading at most one byte. It answers "paper" when no byte came, and otherwise when bits 2 and 3 of the reply are clear. |
| `Printer.EscPosPrinter.constructor` | EscPosPrinter.h:79-80 | The poller starts at stage 0. |
| `Commands.PaperPresent` | EscPosPrinter.cpp:313 | A status byte means paper present exactly when neither paper-end bit (0x04, 0x08) is set. |
| `Commands.Write` | EscPosPrinter.cpp:77-84 | Always reports one byte consumed. It sends nothing exactly for 0x13 and sends the byte itself otherwise. |
| `Commands.WriteStrippingCr` | EscPosPrinter.cpp:77-84 | The intended filter: it sends nothing exactly for a carriage return 0x0D. |
| `Commands.WriteKeepsCarriageReturn` | EscPosPrinter.cpp:79-80 | As written, a carriage return is sent and DC3 is dropped; the intended filter does the opposite. |
| `Commands.Justify` | EscPosPrinter.cpp:173-191 | Sends ESC a n with n = 1 exactly for 'c'/'C', n = 2 exactly for 'r'/'R', and n = 0 for everything else. |
| `Commands.SetSizePreset` | EscPosPrinter.cpp:230-250 | Sends GS ! n with n = 0x01 exactly for 'm'/'M', 0x11 for 'l'/'L', 0x22 for 'x'/'X', and 0x00 for everything else. |
| `Commands.SetSize` | EscPosPrinter.cpp:252-257 | Sends GS ! n with n < 64. Bits 0-2 of n are the low three bits of the height and bits 3-5 those of the width, so both can be read back from n. |
| `Commands.SetSizeEpson` | EscPosPrinter.cpp:252-257 | The intended layout: the low nibble is the height and the high nibble the width. |
| `Commands.PresetsUseEpsonLayout` | EscPosPrinter.cpp:236-246 | The four presets of `setSize(char)` are that layout with (h, w) = (0,0), (1,0), (1,1), (2,2). |
| `Commands.SetSizeMisplacesWidth` | EscPosPrinter.cpp:254 | As written, `setSize(0, 1)` sends 0x08: height field 8 and width field 0. `setSize(1, 1)` differs from the 'L' preset, and the intended layout matches it. |
| `Commands.UnderlineOn` | EscPosPrinter.cpp:263-268 | Sends ESC - n with n ≤ 2. The weight is kept when it is at most 2 and clamped to 2 otherwise. |

## Left out

- Serial set-up (`init`, the constructor's pin arguments, baud rate and read timeout): hardware configuration with no logic. The constructor's port argument is kept.
- Debug output (`printlnV`, `debugD`, `printlnD`): logging only. `SerialDebug.h` is not part of this model.
- The inherited Arduino `Print` machinery, `println`, `test` and the `F()` strings: library formatting.
- Fixed-literal commands (`testPage`, `setupBarcode`, `inverseOn/Off`, `setArea`, `upsideDownOn/Off`, `emphasizedOn/Off`, `flush`, `autoCut`, `rotateStart/Stop`, `sendETX`, `setRelPos`, `offline`, `online`): each sends a constant byte string and has no logic to verify. `underlineOff` is kept as the constant `Commands.UnderlineOff`. The `writeBytes` overloads are `Port.Write` of the listed bytes.
- `feed(x)` (ESC d x, EscPosPrinter.cpp:194-197) and `feedRows(rows)` (ESC J rows, EscPosPrinter.cpp:200-203): each sends a fixed prefix followed by its argument byte unchanged, with no branch or arithmetic to verify.
- `waitCase` (in `tools.h`, not part of this model): its verdict at each call is the parameter `graceOver`, with only the promise that a grace stage stays or advances by one.
- `millis()`: it becomes the parameter `now`. Each path through `getStatus` reads the clock at most once, so one value per call is exact. Monotonicity is not needed by any proof.
- Bytes that arrive in the middle of a call are not modelled. The port changes only between calls. This covers arrivals between `available()` and `read()`, during `clearRxBuffer`, and during `hasPaper`'s polls. This is not concurrency: replies are environment input.
- Printer.EscPosPrinter.HasPaper: a reply that arrives during its ten polls is not modelled, because the port changes only between calls. The ten polls therefore find a byte at the first poll or not at all.
- Poller.Poll: `stateIn + 1` is unbounded; the C `int` overflow at `INT_MAX` (undefined behaviour) is not modelled.
- Printer.EscPosPrinter.constructor: `statusTs` is left unspecified before the first start stage, as in the C++ (it is uninitialised there). Any value is allowed.
- The caller's `statusArray` must hold at least 3 bytes. The code writes indices 0-2 without checking. The header declares a `statusArrayLength` parameter for `getStatus` (EscPosPrinter.h:64) that the definition (EscPosPrinter.cpp:316) does not have, so nothing checks the length.
- `paperLowStatus` and `paperLowState` (EscPosPrinter.h:65, 81) are declared but have no definition, so there is nothing to model.
- `underlineOn`'s default argument `weight = 1` (EscPosPrinter.h:50): a call without an argument is `Commands.UnderlineOn(1)`. Dafny functions have no default arguments.
- `toupper` is modelled for the C locale, where only 'a'-'z' change.

## Findings

| source | as written | input that shows it | evidently intended | confidence | as-written member | corrected member |
|---|---|---|---|---|---|---|
| EscPosPrinter.cpp:79 | `write` drops byte 0x13 (DC3, decimal 19) under the comment "Strip carriage returns" | `write(0x0D)` sends the carriage return, and `write(0x13)` sends nothing (`Commands.WriteKeepsCarriageReturn`) | drop the carriage return, decimal 13 = 0x0D (`ASCII_CR`, line 26) | high; not executed | `Commands.Write` | `Commands.WriteStrippingCr` |
| EscPosPrinter.cpp:254 | `setSize(h, w)` shifts the width left by 3, into bits 3-5 | `setSize(0, 1)` sends GS ! 0x08: height field 8, width field 0. `setSize(1, 1)` sends 0x09, not the 0x11 of `setSize('L')` (`Commands.SetSizeMisplacesWidth`) | shift by 4, so the width sits in the high nibble as GS ! defines and the presets use (`Commands.PresetsUseEpsonLayout`) | high; not executed | `Commands.SetSize` | `Commands.SetSizeEpson` |

Nothing else in the model is built on these two encoders. The as-written
versions model what the code sends, and the corrected versions carry the
intended properties.
