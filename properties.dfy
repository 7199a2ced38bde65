/** What runs of the driver's steps do: hardware events applied one after another
    between facade calls. */
module ChannelProps {
  import opened Bytes
  import opened Buffer
  import opened ChannelSpec

  /** `k` "transmit complete" events in a row. */
  function Transmits(s: ChannelState, k: nat): (r: ChannelState)
    decreases k
  {
    if k == 0 then s else Transmits(TransmitService(s), k - 1)
  }

  /** Receive events for the bytes `cs`, in arrival order. */
  function Receives(s: ChannelState, cs: seq<byte>): (r: ChannelState)
    decreases |cs|
  {
    if cs == [] then s else Receives(ReceiveService(s, cs[0]), cs[1..])
  }

  /** `k` calls of uartNGetByte in a row: the final state and the values returned. */
  function Reads(s: ChannelState, k: nat): (r: (ChannelState, seq<int>))
    decreases k
  {
    if k == 0 then (s, [])
    else
      var (s', c) := GetByte(s);
      var (t, cs) := Reads(s', k - 1);
      (t, [c] + cs)
  }

  /** The calls a receive handler `h` sees for the bytes `cs`. */
  function DeliveriesTo(h: HandlerId, cs: seq<byte>): (r: seq<Delivery>)
    decreases |cs|
  {
    if cs == [] then [] else [Delivery(h, cs[0])] + DeliveriesTo(h, cs[1..])
  }

  /** The bytes as the ints uartNGetByte returns them. */
  function AsInts(cs: seq<byte>): (r: seq<int>)
    decreases |cs|
  {
    if cs == [] then [] else [cs[0] as int] + AsInts(cs[1..])
  }

  lemma TransmitsLast(s: ChannelState, k: nat)
    ensures Transmits(s, k + 1) == TransmitService(Transmits(s, k))
    decreases k
  {
    if k > 0 {
      TransmitsLast(TransmitService(s), k - 1);
    }
  }

  /** In buffered mode each event moves the oldest queued byte to the wire and
      leaves the flags alone, for as long as the queue lasts: FIFO order. */
  lemma {:induction false} TransmitDrainsInOrder(s: ChannelState, k: nat)
    requires s.bufferedTx && k <= |s.tx.data|
    ensures Transmits(s, k) == s.(tx := s.tx.(data := s.tx.data[k..]), wire := s.wire + s.tx.data[..k])
    decreases k
  {
    if k > 0 {
      var s1 := TransmitService(s);
      TransmitDrainsInOrder(s1, k - 1);
      assert s1.tx.data[k - 1..] == s.tx.data[k..];
      assert s1.wire + s1.tx.data[..k - 1] == s.wire + s.tx.data[..k];
    }
  }

  /** The event after the last queued byte finds the queue empty: it ends
      buffered mode and only then marks the transmitter ready. */
  lemma TransmitDrainCompletes(s: ChannelState)
    requires s.bufferedTx
    ensures var t := Transmits(s, |s.tx.data| + 1);
      t == s.(tx := s.tx.(data := []), wire := s.wire + s.tx.data, bufferedTx := false, readyTx := true)
  {
    var m := |s.tx.data|;
    TransmitsLast(s, m);
    TransmitDrainsInOrder(s, m);
    assert s.tx.data[m..] == [] && s.tx.data[..m] == s.tx.data;
  }

  /** uartSendBuffer followed by transmit events: the first byte of the block
      goes out first, then whatever was queued before the call, then the rest of
      the block; the channel stays pending until the event that finds the queue
      empty. */
  lemma SendBufferThenDrain(s: ChannelState, buffer: seq<byte>, nBytes: u16)
    requires nBytes as int <= |buffer| && |s.tx.data| + nBytes as int < 0x1_0000
    requires SendBuffer(s, buffer, nBytes).1
    ensures var s1 := SendBuffer(s, buffer, nBytes).0;
            var q := s.tx.data + buffer[1..nBytes];
            (forall k :: 0 <= k <= |q| ==>
               Transmits(s1, k).wire == s.wire + [buffer[0]] + q[..k] && TransmitPending(Transmits(s1, k))) &&
            Transmits(s1, |q| + 1).wire == s.wire + [buffer[0]] + q &&
            !TransmitPending(Transmits(s1, |q| + 1)) && Transmits(s1, |q| + 1).tx.data == []
  {
    var s1 := SendBuffer(s, buffer, nBytes).0;
    var q := s.tx.data + buffer[1..nBytes];
    assert s1.tx.data == q;
    forall k | 0 <= k <= |q|
      ensures Transmits(s1, k).wire == s.wire + [buffer[0]] + q[..k] && TransmitPending(Transmits(s1, k))
    {
      TransmitDrainsInOrder(s1, k);
    }
    TransmitDrainCompletes(s1);
  }

  /** uartSendTxBuffer followed by transmit events sends the whole queue in order,
      then returns the channel to ready. */
  lemma SendTxBufferThenDrain(s: ChannelState)
    requires s.tx.data != []
    ensures var t := Transmits(SendTxBuffer(s), |s.tx.data|);
            t.wire == s.wire + s.tx.data && t.readyTx && !t.bufferedTx && t.tx.data == []
  {
    var s1 := SendTxBuffer(s);
    TransmitDrainCompletes(s1);
    assert [s.tx.data[0]] + s1.tx.data == s.tx.data;
  }

  /** Without a handler, received bytes fill the free slots in arrival order; each
      byte beyond them leaves the stored bytes untouched and adds one to the
      16-bit overflow counter. */
  lemma {:induction false} ReceiveFillsThenCounts(s: ChannelState, cs: seq<byte>)
    requires s.rxFunc.None? && s.rx.Valid()
    ensures var k := Min(|cs|, s.rx.Room());
      Receives(s, cs) == s.(rx := s.rx.(data := s.rx.data + cs[..k]),
                            rxOverflow := AddWrap16(s.rxOverflow, |cs| - k))
    decreases |cs|
  {
    if cs != [] {
      var s1 := ReceiveService(s, cs[0]);
      ReceiveFillsThenCounts(s1, cs[1..]);
      var k := Min(|cs|, s.rx.Room());
      var k1 := Min(|cs| - 1, s1.rx.Room());
      if |s.rx.data| < s.rx.size as int {
        assert k1 == k - 1;
        assert s1.rx.data + cs[1..][..k1] == s.rx.data + cs[..k];
        assert |cs| - 1 - k1 == |cs| - k;
      } else {
        assert k == 0 && k1 == 0;
        assert s.rx.data + cs[..k] == s.rx.data;
        assert (((s.rxOverflow as int + 1) % 0x1_0000) + (|cs| - 1)) % 0x1_0000
            == (s.rxOverflow as int + |cs|) % 0x1_0000;
      }
    }
  }

  /** With a handler installed, every received byte reaches it unchanged and in
      order; the receive queue and the overflow counter stay as they are. */
  lemma {:induction false} ReceiveWithHandler(s: ChannelState, cs: seq<byte>)
    requires s.rxFunc.Some?
    ensures Receives(s, cs) == s.(delivered := s.delivered + DeliveriesTo(s.rxFunc.value, cs))
    decreases |cs|
  {
    if cs != [] {
      var s1 := ReceiveService(s, cs[0]);
      ReceiveWithHandler(s1, cs[1..]);
      assert s.delivered + DeliveriesTo(s.rxFunc.value, cs)
          == s1.delivered + DeliveriesTo(s.rxFunc.value, cs[1..]);
    }
  }

  /** Reading `k` bytes returns the `k` oldest, oldest first, and removes exactly
      those. */
  lemma {:induction false} ReadsTakeOldest(s: ChannelState, k: nat)
    requires s.rx.size != 0 && k <= |s.rx.data|
    ensures Reads(s, k) == (s.(rx := s.rx.(data := s.rx.data[k..])), AsInts(s.rx.data[..k]))
    decreases k
  {
    if k > 0 {
      var s1 := GetByte(s).0;
      ReadsTakeOldest(s1, k - 1);
      assert s1.rx.data[k - 1..] == s.rx.data[k..];
      assert s.rx.data[..k] == [s.rx.data[0]] + s1.rx.data[..k - 1];
      assert s.rx.data[..k][1..] == s1.rx.data[..k - 1];
    }
  }

  /** Bytes received into an empty queue with room for them are read back exactly
      and in order; the next read returns the sentinel -1. */
  lemma ReceiveThenReadBack(s: ChannelState, cs: seq<byte>)
    requires s.rxFunc.None? && s.rx.data == [] && |cs| <= s.rx.size as int
    ensures var t := Reads(Receives(s, cs), |cs|);
            t.1 == AsInts(cs) && GetByte(t.0).1 == -1 && t.0.rxOverflow == s.rxOverflow
  {
    ReceiveFillsThenCounts(s, cs);
    var r := Receives(s, cs);
    assert r.rx.data == cs;
    if cs != [] {
      ReadsTakeOldest(r, |cs|);
      assert cs[..|cs|] == cs && cs[|cs|..] == [];
    }
  }

  /** Before its init routine has run a channel has no receive queue, so a read
      reports no data. */
  lemma GetByteBeforeInit()
    ensures GetByte(PowerOn()).1 == -1
  {
  }

  /** A flush leaves the receive queue empty whatever it held. */
  lemma FlushThenEmpty(s: ChannelState)
    ensures ReceiveBufferIsEmpty(FlushReceiveBuffer(s))
    ensures GetByte(FlushReceiveBuffer(s)).1 == -1
  {
  }

  /** uartTransmitPending over a channel's life: not pending after init, pending
      once a byte is sent, and back to not pending on the transmit-complete event
      of a single-byte send. */
  lemma TransmitPendingLifecycle(s: ChannelState, rxSize: u16, txSize: u16, b: byte)
    ensures !TransmitPending(ChannelInit(s, rxSize, txSize))
    ensures TransmitPending(SendByte(s, b))
    ensures !s.bufferedTx ==> !TransmitPending(TransmitService(SendByte(s, b)))
  {
  }

  /** The boundary of the strict headroom test: with capacity 8 and 3 bytes
      queued, a block of 4 is accepted and a block of 5 refused. */
  lemma SendBufferBoundary(s: ChannelState, buffer: seq<byte>)
    requires s.tx.size == 8 && |s.tx.data| == 3 && |buffer| >= 5
    ensures SendBuffer(s, buffer, 4).1
    ensures !SendBuffer(s, buffer, 5).1 && SendBuffer(s, buffer, 5).0 == s
    ensures !SendBuffer(s, buffer, 0).1
  {
  }

  /** A block that fits is queued in full: every bufferAddToEnd in the copy loop
      finds room, so the queue grows by exactly nBytes-1. */
  lemma SendBufferQueuesAll(s: ChannelState, buffer: seq<byte>, nBytes: u16)
    requires s.Valid() && nBytes as int <= |buffer| && 0 < nBytes
    requires |s.tx.data| + nBytes as int < s.tx.size as int
    ensures SendBuffer(s, buffer, nBytes).1
    ensures |SendBuffer(s, buffer, nBytes).0.tx.data| == |s.tx.data| + nBytes as int - 1
  {
  }

  // ---------------------------------------------------------------------------
  // The headroom test wraps at 16 bits.

  /** Capacity 8, 2 bytes queued, a block of 65535 bytes: the 16-bit sum 2 + 65535
      is 1, the test passes and uartSendBuffer reports success, but only 6 of the
      65534 bytes it copies fit and the other 65528 are dropped. */
  lemma SendBufferWrapDropsBytes()
    ensures var s := PowerOn().(tx := CBuffer(8, [0, 0]));
            var buffer := seq(65535, _ => 0 as byte);
            var r := SendBuffer(s, buffer, 65535);
            s.Valid() && r.1 && |r.0.tx.data| == 8 && |r.0.tx.data| < |s.tx.data| + 65535 - 1
  {
  }

  /** uartSendBuffer with the headroom test computed without wrap-around, as its
      comment ("check if there's space") intends. */
  function SendBufferFixed(s: ChannelState, buffer: seq<byte>, nBytes: u16): (r: (ChannelState, bool))
    requires nBytes as int <= |buffer|
    ensures r.1 <==> nBytes != 0 && |s.tx.data| + nBytes as int < s.tx.size as int
    ensures !r.1 ==> r.0 == s
    ensures r.1 ==> r.0.wire == s.wire + [buffer[0]] && r.0.bufferedTx && !r.0.readyTx
    ensures r.1 ==> r.0.tx == s.tx.(data := s.tx.data + buffer[1..nBytes])
    ensures r.1 ==> r.0.(wire := s.wire, tx := s.tx, bufferedTx := s.bufferedTx, readyTx := s.readyTx) == s
  {
    if |s.tx.data| + nBytes as int < s.tx.size as int && nBytes != 0 then
      var queued := s.(tx := AddAll(s.tx, buffer[1..nBytes]), bufferedTx := true);
      (SendByte(queued, buffer[0]), true)
    else
      (s, false)
  }

  /** Below the wrap-around the code as written and the corrected test agree. */
  lemma SendBufferAgreesBelowWrap(s: ChannelState, buffer: seq<byte>, nBytes: u16)
    requires nBytes as int <= |buffer| && |s.tx.data| + nBytes as int < 0x1_0000
    ensures SendBuffer(s, buffer, nBytes) == SendBufferFixed(s, buffer, nBytes)
  {
  }
}
