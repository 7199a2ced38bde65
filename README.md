# Dual UART driver — a verified model of its channel logic

This project models the channel logic of an interrupt-driven driver for the two
hardware UARTs of an AVR microcontroller (`uart2.c`). Each channel (`nUart` 0 or 1)
has a transmit queue and a receive queue (`cBuffer`s of fixed capacity), the flags
`uartReadyTx` ("no byte in flight") and `uartBufferedTx` ("the transmit-complete
handler feeds bytes from the queue"), a 16-bit receive-overflow counter and an
optional receive handler. Application code calls the facade routines; the two
interrupt service routines (transmit complete, byte received) run between any two
facade calls, each as one atomic step.

Layout:

- `bytes.dfy` — `Bytes`: the target's `uint8_t`, `uint16_t` and `uint32_t` as
  newtypes; 16-bit wrap-around.
- `buffer.dfy` — `Buffer`: `cBuffer` as a value, a capacity and the queued bytes
  oldest first, with the operations of `buffer.c` that the driver uses.
- `channel.dfy` — `ChannelSpec`: the state of one channel as a value and one step
  function per driver routine.
- `driver.dfy` — `Uart2`: the driver itself. `Channel` is a class holding one
  channel's slice of the per-channel globals. `Driver` holds the two channels and
  one method per routine of `uart2.c`, taking `nUart` where the C routine does.
  Each method changes only the channel it addresses (its modifies clause) and is
  proved to produce the state that the matching `ChannelSpec` step computes. `uartSendBuffer` keeps its byte-by-byte
  copy loop, with a loop invariant.
- `properties.dfy` — `ChannelProps`: properties of runs of steps. This covers FIFO
  draining by transmit events, filling and overflow counting by receive events,
  delivery to a handler, reading back received bytes, and the headroom boundary.
  It also holds the finding below.
- `baud.dfy` — `Baud`: the baud-rate divisor expression.

Hardware is abstract. Every byte written to a channel's data register `UDRn` is
appended to that channel's `wire` sequence. The byte that the receive handler
reads from `UDRn` is a parameter. Every call of a user receive handler is recorded
in `delivered`, as a handler identity and a byte. The configured buffer capacities
(`UARTn_RX_BUFFER_SIZE`, `UARTn_TX_BUFFER_SIZE`) and `F_CPU` are parameters.

The 16-bit headroom test in `uartSendBuffer` is modelled with its wrap-around
(`datalength + nBytes` is computed in 16-bit unsigned arithmetic, because `int` is
16 bits on AVR). Lemmas about successful block sends assume
`datalength + nBytes < 65536`. Below that bound the test as written and the
corrected test agree (`ChannelProps.SendBufferAgreesBelowWrap`).

Three points of the code that the model reproduces exactly:

- A byte that finds the receive queue full is dropped and counted in
  `uartRxOverflow`; stored bytes are never overwritten (uart2.c:356-361).
- `uartSendBuffer` writes the block's first byte straight to `UDRn` and queues
  only the other `nBytes-1` (uart2.c:283-293), so that byte overtakes bytes
  already queued.
- Only `uartSetRxHandler` checks `nUart` (uart2.c:122). The other routines index
  the two-element arrays unchecked, so the model requires `nUart < 2` for them.

## Model

| member | source | states |
|---|---|---|
| `Buffer.Init` | uart2.c:93-104 | bufferInit gives an empty queue of the configured capacity |
| `Buffer.AddToEnd` | uart2.c:353-361 | appends iff occupancy < capacity and says so; a full queue is left intact; occupancy never exceeds capacity |
| `Buffer.GetFromFront` | uart2.c:219-223 | the byte returned followed by the new contents is the old contents (oldest byte out first) |
| `Buffer.Flush` | uart2.c:232-236 | the queue becomes empty and keeps its capacity |
| `Buffer.AddAll` | uart2.c:284-289 | adding a run of bytes one at a time appends those that fit, in order, and drops the rest; capacity is respected |
| `Buffer.AddAllSnoc` | uart2.c:285-289 | one more bufferAddToEnd after a run equals adding the longer run (what the copy loop computes) |
| `Bytes.AddWrap16` | uart2.c:360 | 16-bit unsigned addition: exact below 65536, wraps modulo 65536 |
| `ChannelSpec.PowerOn` | uart2.c:28-46 | the zero-initialised globals: capacity-0 empty queues, both flags clear, overflow 0, no handler, nothing on the wire |
| `ChannelSpec.HasHeadroom` | uart2.c:280 | the 16-bit headroom test; below the wrap it holds iff datalength + nBytes < size |
| `ChannelSpec.ReceiveBufferIsEmpty` | uart2.c:238-241 | true iff the receive queue holds no byte; after a flush it holds (`ChannelProps.FlushThenEmpty`) |
| `ChannelSpec.TransmitPending` | uart2.c:243-246 | true iff the ready flag is clear; over a channel's life see `ChannelProps.TransmitPendingLifecycle` |
| `ChannelSpec.ChannelInit` | uart2.c:55-72 | after init: ready, single-byte mode, overflow 0, no handler, empty queues of the configured sizes; wire untouched |
| `ChannelSpec.SendByte` | uart2.c:161-178 | the byte is appended to the wire, a byte is in flight, nothing else changes (queue bypassed) |
| `ChannelSpec.AddToTxBuffer` | uart2.c:250-254 | the byte is queued behind the others if there is room, else dropped; only the tx queue changes |
| `ChannelSpec.SendTxBuffer` | uart2.c:266-272 | buffered mode on, the oldest queued byte goes to the wire and leaves the queue, in flight |
| `ChannelSpec.SendBuffer` | uart2.c:274-302 | succeeds iff nBytes > 0 and the 16-bit sum datalength+nBytes < size; failure changes nothing; success writes buffer[0] to the wire, sets buffered/not-ready, and queues the prefix of buffer[1..nBytes] that fits behind the old queue, dropping the rest; without wrap that is all of buffer[1..nBytes], leaving occupancy ≤ size-2 |
| `ChannelSpec.TransmitService` | uart2.c:305-333 | buffered with data: front byte to the wire, flags unchanged; buffered and empty: buffered off, ready on; single-byte mode: ready on only |
| `ChannelSpec.ReceiveService` | uart2.c:336-363 | with a handler: exactly that byte is delivered, queue and counter unchanged; without: queued if there is room, else queue unchanged and counter +1 mod 65536 |
| `ChannelSpec.ReceiveByte` | uart2.c:213-230 | reports no data iff the queue has no capacity or is empty, changing nothing; otherwise yields the oldest byte and removes exactly it |
| `ChannelSpec.GetByte` | uart2.c:192-200 | result in -1..255; -1 iff no data (state unchanged); otherwise the oldest byte, which is removed |
| `ChannelSpec.FlushReceiveBuffer` | uart2.c:232-236 | the receive queue is empty afterwards; nothing else changes |
| `ChannelProps.TransmitsLast` | uart2.c:305-333 | k+1 transmit events are k events followed by one more |
| `ChannelProps.TransmitDrainsInOrder` | uart2.c:308-318 | in buffered mode, k ≤ queue length events move the k oldest bytes to the wire in order and leave both flags unchanged |
| `ChannelProps.TransmitDrainCompletes` | uart2.c:319-325 | the event after the last byte empties nothing more, ends buffered mode and only then sets ready |
| `ChannelProps.SendBufferThenDrain` | uart2.c:280-295 | after a successful block send the wire receives buffer[0], then the previously queued bytes, then buffer[1..n]; pending holds until the event that finds the queue empty, which clears it |
| `ChannelProps.SendTxBufferThenDrain` | uart2.c:266-272 | after uartSendTxBuffer, queue-length events send the whole queue in FIFO order and return the channel to ready |
| `ChannelProps.ReceiveFillsThenCounts` | uart2.c:351-361 | without a handler a stream of bytes fills the free slots in arrival order; every later byte adds one to the 16-bit counter and stored bytes are not overwritten |
| `ChannelProps.ReceiveWithHandler` | uart2.c:345-350 | with a handler every byte reaches it unchanged and in order; queue and counter untouched |
| `ChannelProps.ReadsTakeOldest` | uart2.c:192-230 | k reads return the k oldest bytes oldest first and remove exactly those |
| `ChannelProps.ReceiveThenReadBack` | uart2.c:336-363 | bytes received into an empty queue with room are read back exactly, in order, and the next read returns -1 |
| `ChannelProps.GetByteBeforeInit` | uart2.c:216-229 | before init the receive queue has capacity 0, so a read returns -1 |
| `ChannelProps.FlushThenEmpty` | uart2.c:232-241 | after a flush the receive queue reports empty and a read returns -1 |
| `ChannelProps.TransmitPendingLifecycle` | uart2.c:243-246 | not pending after init, pending after a send, not pending after the completion event of a single-byte send |
| `ChannelProps.SendBufferBoundary` | uart2.c:280 | capacity 8, 3 queued: a block of 4 is accepted, 5 is refused with no change, 0 is refused |
| `ChannelProps.SendBufferQueuesAll` | uart2.c:280-289 | when datalength+nBytes < size the send succeeds and the queue grows by exactly nBytes-1 (no byte dropped) |
| `ChannelProps.SendBufferWrapDropsBytes` | uart2.c:280 | capacity 8, 2 queued, nBytes 65535: the wrapped test passes, success is reported, yet the queue holds only 8 bytes |
| `ChannelProps.SendBufferFixed` | uart2.c:274-302 | headroom test without wrap: success iff 0 < nBytes and datalength+nBytes < size, and then every block byte after the first is queued |
| `ChannelProps.SendBufferAgreesBelowWrap` | uart2.c:280 | when datalength+nBytes < 65536 the code as written and the corrected test give the same result |
| `Baud.BaudDivisorRounds` | uart2.c:132 | without overflow, divisor+1 is F_CPU/(16·baud) rounded to nearest |
| `Baud.BaudDivisor` | uart2.c:132 | the 32-bit expression truncated to 16 bits; a rate whose quotient is 0 wraps the subtraction and stores divisor 0xFFFF |
| `Uart2.Channel.constructor` | uart2.c:28-46 | the statically allocated channel state starts at zero (capacity-0 queues, no handler) |
| `Uart2.Driver.constructor` | uart2.c:28-46 | two distinct zeroed channels with the configured buffer sizes |
| `Uart2.Driver.Uart0Init` | uart2.c:55-72 | channel 0 is in the state ChannelInit computes with the UART0 sizes |
| `Uart2.Driver.Uart1Init` | uart2.c:74-91 | channel 1 is in the state ChannelInit computes with the UART1 sizes |
| `Uart2.Driver.UartInit` | uart2.c:48-53 | both channels are initialised |
| `Uart2.Driver.SetRxHandler` | uart2.c:119-127 | installs or clears the handler of a valid channel; nUart ≥ 2 changes nothing |
| `Uart2.Driver.SendByte` | uart2.c:161-178 | the channel's state becomes ChannelSpec.SendByte of the old one |
| `Uart2.Driver.Uart0SendByte` | uart2.c:180-184 | uartSendByte on channel 0 |
| `Uart2.Driver.Uart1SendByte` | uart2.c:186-190 | uartSendByte on channel 1 |
| `Uart2.Driver.ReceiveByte` | uart2.c:213-230 | new state and result are those of ChannelSpec.ReceiveByte |
| `Uart2.Driver.Uart0GetByte` | uart2.c:192-200 | new state and result are those of ChannelSpec.GetByte on channel 0 |
| `Uart2.Driver.Uart1GetByte` | uart2.c:202-210 | new state and result are those of ChannelSpec.GetByte on channel 1 |
| `Uart2.Driver.FlushReceiveBuffer` | uart2.c:232-236 | the channel's receive queue is flushed, as ChannelSpec.FlushReceiveBuffer |
| `Uart2.Driver.ReceiveBufferIsEmpty` | uart2.c:238-241 | true iff the channel's receive queue holds no byte |
| `Uart2.Driver.TransmitPending` | uart2.c:243-246 | true iff the channel's ready flag is clear |
| `Uart2.Driver.AddToTxBuffer` | uart2.c:250-254 | the channel's state becomes ChannelSpec.AddToTxBuffer of the old one |
| `Uart2.Driver.Uart0AddToTxBuffer` | uart2.c:256-259 | uartAddToTxBuffer on channel 0 |
| `Uart2.Driver.Uart1AddToTxBuffer` | uart2.c:261-264 | uartAddToTxBuffer on channel 1 |
| `Uart2.Driver.SendTxBuffer` | uart2.c:266-272 | the channel's state becomes ChannelSpec.SendTxBuffer of the old one |
| `Uart2.Driver.SendBuffer` | uart2.c:274-302 | the copy loop plus the first-byte send produce exactly ChannelSpec.SendBuffer's state and result |
| `Uart2.Driver.TransmitService` | uart2.c:305-333 | the channel's state becomes ChannelSpec.TransmitService of the old one |
| `Uart2.Driver.ReceiveService` | uart2.c:336-363 | the channel's state becomes ChannelSpec.ReceiveService of the old one and the received byte |

Each `Uart2.Driver` method changes only the channel it addresses (its modifies
clause; `UartInit` addresses both), so the two channels are independent.

## Findings

| source | as written | input that shows it | evidently intended | confidence | as-written member | corrected member |
|---|---|---|---|---|---|---|
| uart2.c:280 | `datalength + nBytes < size` summed in 16-bit unsigned arithmetic, so the sum can wrap | capacity 8, 2 bytes queued, nBytes 65535: 2 + 65535 wraps to 1 < 8, the call reports success, and 65528 of the 65534 copied bytes are silently dropped | refuse any block that does not fit, i.e. compare without wrap-around | not executed; the wrap follows from AVR's 16-bit `int`, but callers rarely pass blocks this large | `ChannelProps.SendBufferWrapDropsBytes` | `ChannelProps.SendBufferFixed` |

`ChannelSpec.SendBuffer` states for every input, wrapped or not, that a
successful call queues only the bytes that fit and drops the rest. The driver
method `Uart2.Driver.SendBuffer` models the code as written. The
properties of successful block sends are stated below the wrap-around, where
`ChannelProps.SendBufferAgreesBelowWrap` shows that the code as written and
`ChannelProps.SendBufferFixed` coincide.

## Left out

- The busy-wait on `UDRE` in `uartSendByte` (uart2.c:168, uart2.c:173): the model
  writes the byte at once. Register I/O through `outb`/`inb` on `UCSRnB`,
  `UBRRnL/H` and `UDRn` is replaced by the `wire` sequence and the received-byte
  parameter.
- `sei()` and real interrupt preemption (uart2.c:71, uart2.c:90): each routine is
  one atomic step, and interleaving inside a facade call is not modelled.
- The interrupt vector bindings (uart2.c:365-387): they only dispatch to the
  service routines.
- Where buffer memory lives (static arrays or `UART_BUFFER_EXTERNAL_RAM`
  addresses, uart2.c:36-43, uart2.c:93-117): only each queue's capacity is kept.
- buffer.c is not part of this model. Its head and index arithmetic is replaced by
  an abstract bounded FIFO. `bufferGetFromFront` requires a non-empty queue, so
  `uartSendTxBuffer` requires a non-empty transmit queue.
- The body of a user receive handler (a foreign function pointer): only the calls
  it receives are recorded.
- `uartGetRxBuffer`/`uartGetTxBuffer` (uart2.c:149-159): they return raw pointers.
- `uartSetBaudRate`'s register writes (uart2.c:133-146): only the divisor
  expression is modelled, as `Baud.BaudDivisor`, with `F_CPU` as a parameter. The
  default baud rate set by the init routines is not modelled.
- The flags are `uint8_t` in the driver. They are `bool` here, because the driver
  only ever stores 0 or 1 in them.
- Routines other than `uartSetRxHandler` require `nUart < 2`. Out of range, C
  indexes the per-channel arrays out of bounds.
- `uartSendBuffer` requires the caller's buffer to hold at least `nBytes` bytes.
