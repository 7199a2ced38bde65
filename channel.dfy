/** The state of one channel of the dual UART driver (the slice of the driver's
    per-channel globals that belongs to that channel) and one step function per
    routine of the driver. Each step is atomic: the hardware handlers run to
    completion between two facade calls. Writes to the data register UDRn are
    recorded by appending to `wire`; the byte read from UDRn by the receive
    handler is a parameter. */
module ChannelSpec {
  import opened Bytes
  import opened Buffer

  /** One call of the user's receive handler `handler` with byte `c`. */
  datatype Delivery = Delivery(handler: HandlerId, c: byte)

  datatype ChannelState = ChannelState(
    readyTx: bool,              // uartReadyTx[n]: no byte is in flight
    bufferedTx: bool,           // uartBufferedTx[n]: the transmit handler feeds from tx
    rxOverflow: u16,            // uartRxOverflow[n]
    rxFunc: Option<HandlerId>,  // UartRxFunc[n]; None is the null pointer
    rx: CBuffer,                // uartRxBuffer[n]
    tx: CBuffer,                // uartTxBuffer[n]
    wire: seq<byte>,            // every byte written to UDRn, oldest first
    delivered: seq<Delivery>)   // every call of a receive handler, oldest first
  {
    predicate Valid()
    {
      rx.Valid() && tx.Valid()
    }
  }

  /** The channel before its init routine has run: the driver's globals are
      statically allocated and therefore zero, so both queues have capacity 0. */
  function PowerOn(): (r: ChannelState)
    ensures r.Valid() && r.rx.size == 0 && r.tx.size == 0 && r.rx.data == [] && r.tx.data == []
    ensures !r.readyTx && !r.bufferedTx && r.rxOverflow == 0 && r.rxFunc == None
    ensures r.wire == [] && r.delivered == []
  {
    ChannelState(false, false, 0, None, Buffer.Init(0), Buffer.Init(0), [], [])
  }

  /** uart0Init / uart1Init: fresh queues of the configured capacities, no handler,
      ready to transmit, single-byte mode, overflow count cleared. */
  function ChannelInit(s: ChannelState, rxSize: u16, txSize: u16): (r: ChannelState)
    ensures r.Valid()
    ensures r.readyTx && !r.bufferedTx && r.rxOverflow == 0 && r.rxFunc == None
    ensures r.rx.data == [] && r.rx.size == rxSize && r.tx.data == [] && r.tx.size == txSize
    ensures r.wire == s.wire && r.delivered == s.delivered
  {
    s.(rx := Buffer.Init(rxSize), tx := Buffer.Init(txSize), rxFunc := None,
       readyTx := true, bufferedTx := false, rxOverflow := 0)
  }

  /** uartSendByte: the byte goes straight to the data register and a byte is
      now in flight; the transmit queue is bypassed. */
  function SendByte(s: ChannelState, txData: byte): (r: ChannelState)
    ensures r.wire == s.wire + [txData] && !r.readyTx
    ensures r.(wire := s.wire, readyTx := s.readyTx) == s
    ensures s.Valid() ==> r.Valid()
  {
    s.(wire := s.wire + [txData], readyTx := false)
  }

  /** uartAddToTxBuffer: queues a byte for a later buffered send; a full queue
      drops it silently. */
  function AddToTxBuffer(s: ChannelState, data: byte): (r: ChannelState)
    ensures r.tx.size == s.tx.size
    ensures r.tx.data == if |s.tx.data| < s.tx.size as int then s.tx.data + [data] else s.tx.data
    ensures r.(tx := s.tx) == s
    ensures s.Valid() ==> r.Valid()
  {
    s.(tx := AddToEnd(s.tx, data).0)
  }

  /** uartSendTxBuffer: turns buffered mode on and sends the oldest queued byte. */
  function SendTxBuffer(s: ChannelState): (r: ChannelState)
    requires s.tx.data != []
    ensures r.wire == s.wire + [s.tx.data[0]] && r.tx.data == s.tx.data[1..] && r.tx.size == s.tx.size
    ensures r.bufferedTx && !r.readyTx
    ensures r.(wire := s.wire, tx := s.tx, bufferedTx := s.bufferedTx, readyTx := s.readyTx) == s
    ensures s.Valid() ==> r.Valid()
  {
    var (rest, first) := GetFromFront(s.tx);
    SendByte(s.(bufferedTx := true, tx := rest), first)
  }

  /** The headroom test of uartSendBuffer, `datalength + nBytes < size`, whose sum
      is computed in 16-bit unsigned arithmetic on the AVR. */
  function HasHeadroom(s: ChannelState, nBytes: u16): (r: bool)
    ensures |s.tx.data| + nBytes as int < 0x1_0000 ==> (r <==> |s.tx.data| + nBytes as int < s.tx.size as int)
    ensures r <==> (|s.tx.data| + nBytes as int) % 0x1_0000 < s.tx.size as int
  {
    (|s.tx.data| + nBytes as int) % 0x1_0000 < s.tx.size as int
  }

  /** uartSendBuffer as written: all-or-nothing; on success the first byte goes
      straight to the data register and only the other nBytes-1 are queued. */
  function SendBuffer(s: ChannelState, buffer: seq<byte>, nBytes: u16): (r: (ChannelState, bool))
    requires nBytes as int <= |buffer|
    ensures r.1 <==> nBytes != 0 && (|s.tx.data| + nBytes as int) % 0x1_0000 < s.tx.size as int
    ensures !r.1 ==> r.0 == s
    ensures r.1 ==> r.0.wire == s.wire + [buffer[0]] && r.0.bufferedTx && !r.0.readyTx
    ensures r.1 ==> r.0.tx.size == s.tx.size &&
                    r.0.(wire := s.wire, tx := s.tx, bufferedTx := s.bufferedTx, readyTx := s.readyTx) == s
    ensures r.1 ==> r.0.tx.data == s.tx.data + buffer[1..nBytes][..Min(nBytes as int - 1, s.tx.Room())]
    ensures r.1 && |s.tx.data| + nBytes as int < 0x1_0000 ==>
              r.0.tx.data == s.tx.data + buffer[1..nBytes] && |r.0.tx.data| <= s.tx.size as int - 2
    ensures s.Valid() ==> r.0.Valid()
  {
    if HasHeadroom(s, nBytes) && nBytes != 0 then
      var queued := s.(tx := AddAll(s.tx, buffer[1..nBytes]), bufferedTx := true);
      (SendByte(queued, buffer[0]), true)
    else
      (s, false)
  }

  /** uartTransmitService, the "transmit complete" handler. */
  function TransmitService(s: ChannelState): (r: ChannelState)
    ensures s.bufferedTx && s.tx.data != [] ==>
              r == s.(tx := s.tx.(data := s.tx.data[1..]), wire := s.wire + [s.tx.data[0]])
    ensures s.bufferedTx && s.tx.data == [] ==> r == s.(bufferedTx := false, readyTx := true)
    ensures !s.bufferedTx ==> r == s.(readyTx := true)
    ensures s.Valid() ==> r.Valid()
  {
    if s.bufferedTx then
      if s.tx.DataLength() != 0 then
        var (rest, c) := GetFromFront(s.tx);
        s.(tx := rest, wire := s.wire + [c])
      else
        s.(bufferedTx := false, readyTx := true)
    else
      s.(readyTx := true)
  }

  /** uartReceiveService, the "byte received" handler; `c` is the byte read from
      UDRn. With a handler installed the byte goes to it; otherwise it is queued,
      or, when the queue is full, dropped and counted. */
  function ReceiveService(s: ChannelState, c: byte): (r: ChannelState)
    ensures s.rxFunc.Some? ==> r == s.(delivered := s.delivered + [Delivery(s.rxFunc.value, c)])
    ensures s.rxFunc.None? && |s.rx.data| < s.rx.size as int ==> r == s.(rx := s.rx.(data := s.rx.data + [c]))
    ensures s.rxFunc.None? && |s.rx.data| >= s.rx.size as int ==> r == s.(rxOverflow := AddWrap16(s.rxOverflow, 1))
    ensures s.Valid() ==> r.Valid()
  {
    match s.rxFunc
    case Some(h) => s.(delivered := s.delivered + [Delivery(h, c)])
    case None =>
      var (rx', stored) := AddToEnd(s.rx, c);
      s.(rx := rx', rxOverflow := if stored then s.rxOverflow else AddWrap16(s.rxOverflow, 1))
  }

  /** uartReceiveByte: the oldest received byte, or None (the routine returns 0)
      when the channel has no receive queue or it is empty. */
  function ReceiveByte(s: ChannelState): (r: (ChannelState, Option<byte>))
    ensures r.1.None? <==> s.rx.size == 0 || s.rx.data == []
    ensures r.1.None? ==> r.0 == s
    ensures r.1.Some? ==> [r.1.value] + r.0.rx.data == s.rx.data && r.0.rx.size == s.rx.size
    ensures r.0.(rx := s.rx) == s
    ensures s.Valid() ==> r.0.Valid()
  {
    if s.rx.size != 0 then
      if s.rx.DataLength() != 0 then
        var (rest, c) := GetFromFront(s.rx);
        (s.(rx := rest), Some(c))
      else
        (s, None)
    else
      (s, None)
  }

  /** uart0GetByte / uart1GetByte: the oldest received byte as an int in 0..255,
      or the sentinel -1 when there is none. */
  function GetByte(s: ChannelState): (r: (ChannelState, int))
    ensures -1 <= r.1 <= 255
    ensures r.1 == -1 <==> s.rx.size == 0 || s.rx.data == []
    ensures r.1 == -1 ==> r.0 == s
    ensures r.1 != -1 ==> r.1 == s.rx.data[0] as int && r.0 == s.(rx := s.rx.(data := s.rx.data[1..]))
  {
    var (s', c) := ReceiveByte(s);
    match c
    case Some(b) => (s', b as int)
    case None => (s, -1)
  }

  /** uartFlushReceiveBuffer: empties the receive queue and nothing else. */
  function FlushReceiveBuffer(s: ChannelState): (r: ChannelState)
    ensures ReceiveBufferIsEmpty(r)
    ensures r.rx.size == s.rx.size && r.(rx := s.rx) == s
    ensures s.Valid() ==> r.Valid()
  {
    s.(rx := Flush(s.rx))
  }

  /** uartReceiveBufferIsEmpty */
  function ReceiveBufferIsEmpty(s: ChannelState): (r: bool)
    ensures r <==> s.rx.data == []
  {
    s.rx.DataLength() == 0
  }

  /** uartTransmitPending: a byte is still in flight. */
  function TransmitPending(s: ChannelState): (r: bool)
    ensures r <==> !s.readyTx
  {
    !s.readyTx
  }
}
