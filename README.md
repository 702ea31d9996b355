# DLMS/SPODES communications: serial, RS485 and BLE media

This project models the core of a Python transport layer that carries
HDLC-framed byte streams between a DLMS/SPODES client and a meter. It covers
three pieces, and proves properties of each:

- **The serial receive loop** (`SerialPort.receive`). It reads the line one
  byte at a time and appends each read to the caller's buffer. It returns
  True at a read that returns the flag byte 0x7E while the buffer holds more
  than one byte. It returns False at a read that comes back empty, which is a
  timeout. Module `SerialLine`, file `serial_port.dfy`.
- **The RS485 shared-line table** (`RS485.__new__`, `open`, `close` over the
  module-level `medias` dict). One object per port name is shared by every
  `RS485(port)` call, together with a count of logical opens. The client is
  opened only on the 0→1 step of the count. It is closed, and the row
  dropped, by a close at count ≤ 1. Module `Rs485`, file `rs485.dfy`.
- **The BLE media** (`BLEKPZ`). `send` cuts the payload into 20-byte GATT
  writes. Before each write it clears an acknowledgment event, and after each
  write it waits for the event. The `ready_handle` callback sets the event
  only for the value `01`. The `put_recv_buf` callback appends notifications
  to a receive buffer. `receive` polls that buffer and hands all of it over
  once it ends in a flag and holds more than one byte. Module `Ble`, file
  `ble.dfy`.

Module `Bytes` (`bytes.dfy`) holds what the modules share: `byte`, the flag
value, `Concat`, and `ByteArray`, the caller's `bytearray` that `receive`
extends in place. It also holds `EndsFrame`, the frame-end test of the BLE
receive specification `TakeFrame`.

How the I/O is represented:

- **Serial line.** The line is a parameter `line: seq<ReadResult>`. It lists
  what successive `read()` calls return: one byte, or nothing on a timeout. A
  read past the end of `line` behaves as a timeout and consumes nothing.
- **Registry.** The process-wide `medias` dict becomes a `Registry` object
  that the RS485 operations take as a parameter.
- **RS485 objects.** An `RS485` object holds the `SerialPort` part it
  inherits as `line`. Python re-runs `SerialPort.__init__` on the object that
  `__new__` returns. That re-run is `SerialPort.Reinit`, which leaves the
  client closed.
- **Ghost logs.** Calls into the pyserial client are counted in the ghost
  fields `openCalls`, `closeCalls` and `written`. The BLE link steps (clear
  the event, write a chunk, wait for the acknowledgment) are logged in the
  ghost field `gatt`.
- **BLE callbacks.** The notification callbacks are methods. `send` takes,
  for each chunk, what the ready characteristic delivers during that chunk's
  wait. `receive` takes what the receive characteristic delivers during each
  of its sleeps. When those inputs run out, the caller's `wait_for` has
  cancelled the call.

What the code does, and what it does not do:

- **Frame detection (BLE).** `receive` polls until the whole receive buffer
  ends in the flag and holds more than one byte
  (src/DLMS_SPODES_communications/ble.py:114). A notification that contains
  the flag somewhere else does not end the wait.
- **Partial bytes on cancellation (BLE).** When the caller's timeout
  cancels `receive`, the bytes received so far stay in `_recv_buff`, and the
  caller's buffer is untouched (ble.py:113-119).
- **Bad acknowledgment.** `ready_handle` raises inside the notification
  callback on any value other than `01` (ble.py:64-68). `send` never sees
  that exception: the event stays clear and the chunk's wait ends with a
  timeout.
- **RS485 open and close.** `open` and `close`
  (serial_port.py:82-102) take no lock, do not undo the count when the
  client's open fails, and have no "still in use" result.
- **Close on RS485.** `close` changes the table only while the object's
  client reports open (serial_port.py:94).
- **Chunk size.** It is the constant 20 (ble.py:37), not a value obtained
  from the link.

## Model

| member | source | states |
|---|---|---|
| `SerialLine.AssembleStopsAtFirstBoundary` | src/DLMS_SPODES_communications/serial_port.py:36-43 | The loop consumes reads up to the first one that is empty or closes a frame, and no read after it. The buffer keeps its old contents as a prefix and gains exactly the bytes read, in order. The result is True iff the last read consumed returned 0x7E with the buffer then longer than one byte. |
| `SerialLine.ReceiveCompletesAtFirstFlag` | src/DLMS_SPODES_communications/serial_port.py:37-41 | Suppose no earlier read stopped the loop, and read j returns 0x7E with the buffer then longer than one byte. Then receive returns True after exactly j+1 reads, with the buffer extended by those reads. |
| `SerialLine.ReceiveTimesOutAtFirstEmptyRead` | src/DLMS_SPODES_communications/serial_port.py:38-43 | At the first empty read, receive returns False. The buffer is the old buffer followed by every byte read before that read; nothing is discarded. |
| `SerialLine.ReceiveTimesOutOnSilentLine` | src/DLMS_SPODES_communications/serial_port.py:36-43 | Suppose no read stops the loop before the line falls silent. Then receive returns False with every delivered byte appended. |
| `SerialLine.AssembleExtends` | src/DLMS_SPODES_communications/serial_port.py:36-43 | The loop consumes no more reads than the line delivers and only appends to the buffer. It reports a frame only on a read that returned the flag. |
| `SerialLine.LoneFlagOpensFrame` | src/DLMS_SPODES_communications/serial_port.py:40 | With an empty buffer, a first read of 0x7E does not end the loop. A True result then needs a later read of 0x7E (at least two reads), and the buffer starts with the flag. |
| `SerialLine.TwoFlagsMakeFrame` | src/DLMS_SPODES_communications/serial_port.py:40-41 | Two flags in a row, read into an empty buffer, are a complete two-byte frame. |
| `SerialLine.SerialPort.Receive` | src/DLMS_SPODES_communications/serial_port.py:36-43 | The in-place loop returns exactly what `Assemble` describes: the verdict, the extended caller buffer, and the number of reads consumed. |
| `SerialLine.SerialPort.constructor` | src/DLMS_SPODES_communications/serial_port.py:12-23 | A new object has a closed client bound to the port, with the given baud rate. |
| `SerialLine.SerialPort.Reinit` | src/DLMS_SPODES_communications/serial_port.py:12-23 | Running `__init__` again replaces the client with a closed one. The port and the call logs stay as they were. |
| `SerialLine.SerialPort.Open` | src/DLMS_SPODES_communications/serial_port.py:33-34 | Opens the client and counts one call of the client's open. |
| `SerialLine.SerialPort.Close` | src/DLMS_SPODES_communications/serial_port.py:45-46 | Closes the client and counts one call of the client's close. |
| `SerialLine.SerialPort.Send` | src/DLMS_SPODES_communications/serial_port.py:48-49 | Appends the data to the log of client writes. |
| `Rs485.Registry.constructor` | src/DLMS_SPODES_communications/serial_port.py:105 | The table starts empty. |
| `Rs485.Registry.Construct` | src/DLMS_SPODES_communications/serial_port.py:71-80 | For a port not yet in the table, files a fresh object with count 0 and empty `alienFrames`. For a filed port, returns the filed object and leaves the table unchanged. Either way the returned object's client is closed and has the new baud rate. |
| `Rs485.RS485.Open` | src/DLMS_SPODES_communications/serial_port.py:82-92 | On a filed port the count rises by 1, and the client is opened only when the new count is 1. On a port that is not filed, the client is opened. Every other port's row, and the filed object, stay unchanged. |
| `Rs485.RS485.Close` | src/DLMS_SPODES_communications/serial_port.py:94-102 | Applies only when the port is filed and the client is open. Then a count > 1 drops by 1 and the client stays open, while a count ≤ 1 removes the row and closes the client. In every other case the client is closed and the table is untouched. Other ports' rows never change. |
| `Rs485.OpensCountUp` | src/DLMS_SPODES_communications/serial_port.py:83-92 | N opens of a filed port add N to its count. They open the client exactly once if the count started at 0, and never otherwise. |
| `Rs485.ClosesCountDown` | src/DLMS_SPODES_communications/serial_port.py:95-100 | While the count exceeds the number of closes so far, each close only decrements it. The line stays filed and open, with no client close. |
| `Rs485.OpensThenClosesBalance` | src/DLMS_SPODES_communications/serial_port.py:82-102 | A port opened N times from count 0 stays open through N-1 closes with count N-k. The N-th close removes the row and closes the client. Over the whole run the client is opened once and closed once. |
| `Rs485.CountNeverNegative` | src/DLMS_SPODES_communications/serial_port.py:83-99 | Any sequence of constructions, opens and closes, unmatched closes included, keeps the count ≥ 0. A port without a row has count 0. |
| `Rs485.ReconstructStrandsCount` | src/DLMS_SPODES_communications/serial_port.py:75-99 | `RS485(port)` on a line that is open leaves the shared client closed. A following open then only counts up, and any number of closes leaves the row and its count in place. |
| `Rs485.TwoHandlesShareOneLine` | src/DLMS_SPODES_communications/serial_port.py:71-102 | Take two handles on one port, both created before opening, and open both. Closing the first leaves the line open with count 1; closing the second closes it. |
| `Ble.ChunksConcat` | src/DLMS_SPODES_communications/ble.py:131-137 | The chunks concatenate back to the payload. |
| `Ble.ChunksAreSlices` | src/DLMS_SPODES_communications/ble.py:131-137 | There are ceil(len/20) chunks, none for an empty payload. Each chunk is non-empty and at most `SEND_BUF_SIZE` bytes. Chunk i is the slice `data[20i:20i+20]`. |
| `Ble.SliceIsChunk` | src/DLMS_SPODES_communications/ble.py:132 | The slice cut at `pos = 20i` is chunk i. The slice after the last chunk is empty, which ends the loop. |
| `Ble.SendStepsLength` | src/DLMS_SPODES_communications/ble.py:131-137 | A send of n chunks takes 3n link steps. |
| `Ble.SendStepsAt` | src/DLMS_SPODES_communications/ble.py:123-136 | Chunk i is written at step 3i+1. The step before it clears the event, and the step after it is the single wait for the acknowledgment. |
| `Ble.WritesOfSendSteps` | src/DLMS_SPODES_communications/ble.py:131-137 | The writes a send makes are its chunks, each once, in order. |
| `Ble.FirstUnacked` | src/DLMS_SPODES_communications/ble.py:133-136 | Gives the index of the first chunk not acknowledged with `READY_OK`. Every chunk before it is acknowledged. |
| `Ble.SendFromStopsAtFirstUnacked` | src/DLMS_SPODES_communications/ble.py:131-136 | If every chunk is acknowledged with `READY_OK`, the chunk loop ends Done after the clear/write/wait steps of all chunks. Otherwise it ends with a timeout at the first unacknowledged chunk, after the steps of exactly the chunks up to and including that one. |
| `Ble.TakeFrameAtFirstFrameEnd` | src/DLMS_SPODES_communications/ble.py:112-119 | Receive hands the buffer over at the first poll that finds it ending in 0x7E with length > 1, and at no earlier poll. The handed-over frame plus what stays buffered is exactly what was buffered. Cancelled, it moves nothing and leaves every byte in the receive buffer. |
| `Ble.BLEKPZ.constructor` | src/DLMS_SPODES_communications/ble.py:91-95 | A new object has no client, so `is_open` is False. |
| `Ble.BLEKPZ.Connect` | src/DLMS_SPODES_communications/ble.py:45-57 | Connecting leaves a client and an unset event. The receive buffer is emptied only if the connection succeeds. |
| `Ble.BLEKPZ.Close` | src/DLMS_SPODES_communications/ble.py:97-101 | Disconnects the client. Without a client it raises. |
| `Ble.BLEKPZ.ReadyHandle` | src/DLMS_SPODES_communications/ble.py:64-68 | Sets the event iff the acknowledgment is `01`. Any other value raises ConnectionError and leaves the event as it was. |
| `Ble.BLEKPZ.PutRecvBuf` | src/DLMS_SPODES_communications/ble.py:60-62 | Appends the notification bytes to the end of the receive buffer. |
| `Ble.BLEKPZ.SendChunk` | src/DLMS_SPODES_communications/ble.py:121-124 | Logs the write, then the wait. The event afterwards is set iff it was set before or `READY_OK` arrived. |
| `Ble.BLEKPZ.Send` | src/DLMS_SPODES_communications/ble.py:126-137 | Without a client it raises AttributeError, and without a connection ConnectionError; neither writes anything. Otherwise the link steps are clear/write/wait for every chunk up to and including the first unacknowledged one. It is Done if every chunk was acknowledged, and a timeout otherwise. The event is left set iff the call is Done; the raising paths and an empty payload leave it as it was. |
| `Ble.BLEKPZ.SendChunks` | src/DLMS_SPODES_communications/ble.py:131-136 | The in-place chunk loop ends as `SendFrom` describes and logs exactly its link steps. Over a non-empty payload the event is left set iff the call ends Done; an empty payload leaves it as it was. |
| `Ble.BLEKPZ.Receive` | src/DLMS_SPODES_communications/ble.py:112-119 | The polling loop does what `TakeFrame` describes. When it completes, the whole receive buffer is appended to the caller's buffer and the receive buffer is empty. It never reports failure itself; only cancellation stops it early. |

## Left out

- src/DLMS_SPODES_communications/network.py: a timeout wrapper around opening a TCP stream, with no logic of its own.
- `AsyncSerial`: its construction and a `serial_asyncio` open. Its send and receive come from a `StreamBase` that is not part of this model.
- src/DLMS_SPODES_communications/base.py: abstract method declarations and timeout constants only.
- The rest of BLE connection management: the service lookup and `start_notify` in `open`, `search` and `get_characteristics`. These are calls into bleak and winrt. `Connect` and `Close` keep only their effect on the modelled state.
- Clocks and timeouts: `time.monotonic`, `asyncio.timeout`, `wait_for`, the polling `sleep`, and the inactivity, send and connect timeouts. A timeout is an input outcome: an empty read, a `Silent` acknowledgment, or running out of arrivals.
- `_buf_locker`, the `asyncio.Event` object and `__send_buf`. The event is a boolean field, and operations run one after another.
- pyserial's own behaviour: it raises on a second `open`, ignores `close` on a closed port, fails on a missing device, and raises on a read from a closed port. The model's client `Open` and `Close` always succeed and only count calls.
- `SerialPort.Reinit`: the pyserial client it replaces is dropped, open or not. What happens to that client's port (closed when it is garbage-collected) is not modelled.
- `Ble.BLEKPZ.Send`: `wait_for` also bounds the GATT write itself. The model lets a chunk's timeout fall only at its acknowledgment wait, after the write is logged.
- `Ble.BLEKPZ.Connect`: before the first successful connection the source has no `_recv_buff` attribute. The model has an empty receive buffer from construction on.
- `__repr__`, `__str__`, the `print` calls, `SEND_BUF_SIZE_OLD` (declared, never used) and the tests, which need real hardware and assert nothing.
