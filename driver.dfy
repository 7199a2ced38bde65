/** The dual UART driver itself: the per-channel globals, updated in place by
    the facade routines and by the two interrupt service routines. Each routine
    is proved to leave its channel in the state the matching step function of
    ChannelSpec computes; only the channel `nUart` names is in its modifies
    clause, so the other channel is untouched. */
module Uart2 {
  import opened Bytes
  import opened Buffer
  import opened ChannelSpec

  /** The globals uartReadyTx, uartBufferedTx, uartRxOverflow, UartRxFunc,
      uartRxBuffer and uartTxBuffer at one channel index, plus that channel's data
      register as the sequence of bytes written to it. */
  class Channel {
    var readyTx: bool
    var bufferedTx: bool
    var rxOverflow: u16
    var rxFunc: Option<HandlerId>
    var rxBuffer: CBuffer
    var txBuffer: CBuffer
    var wire: seq<byte>
    var delivered: seq<Delivery>

    predicate Valid()
      reads this
    {
      rxBuffer.Valid() && txBuffer.Valid()
    }

    function State(): ChannelState
      reads this
    {
      ChannelState(readyTx, bufferedTx, rxOverflow, rxFunc, rxBuffer, txBuffer, wire, delivered)
    }

    /** Statically allocated, so zero until the init routine runs. */
    constructor ()
      ensures Valid() && State() == PowerOn()
    {
      readyTx, bufferedTx, rxOverflow, rxFunc := false, false, 0, None;
      rxBuffer, txBuffer := Buffer.Init(0), Buffer.Init(0);
      wire, delivered := [], [];
    }
  }

  class Driver {
    const chan0: Channel
    const chan1: Channel
    // UART0_RX_BUFFER_SIZE, UART0_TX_BUFFER_SIZE, UART1_RX_BUFFER_SIZE, UART1_TX_BUFFER_SIZE
    const rx0Size: u16
    const tx0Size: u16
    const rx1Size: u16
    const tx1Size: u16

    ghost predicate Valid()
      reads chan0, chan1
    {
      chan0 != chan1 && chan0.Valid() && chan1.Valid()
    }

    /** The channel selected by `nUart`. */
    function Chan(nUart: byte): Channel
      requires nUart < 2
    {
      if nUart == 0 then chan0 else chan1
    }

    constructor (rx0: u16, tx0: u16, rx1: u16, tx1: u16)
      ensures Valid() && fresh(chan0) && fresh(chan1)
      ensures chan0.State() == PowerOn() && chan1.State() == PowerOn()
      ensures rx0Size == rx0 && tx0Size == tx0 && rx1Size == rx1 && tx1Size == tx1
    {
      chan0 := new Channel();
      chan1 := new Channel();
      rx0Size, tx0Size, rx1Size, tx1Size := rx0, tx0, rx1, tx1;
    }

    /** uart0Init */
    method Uart0Init()
      requires Valid()
      modifies chan0
      ensures Valid()
      ensures chan0.State() == ChannelInit(old(chan0.State()), rx0Size, tx0Size)
    {
      chan0.rxBuffer, chan0.txBuffer := Buffer.Init(rx0Size), Buffer.Init(tx0Size);
      chan0.rxFunc := None;
      chan0.readyTx, chan0.bufferedTx := true, false;
      chan0.rxOverflow := 0;
    }

    /** uart1Init */
    method Uart1Init()
      requires Valid()
      modifies chan1
      ensures Valid()
      ensures chan1.State() == ChannelInit(old(chan1.State()), rx1Size, tx1Size)
    {
      chan1.rxBuffer, chan1.txBuffer := Buffer.Init(rx1Size), Buffer.Init(tx1Size);
      chan1.rxFunc := None;
      chan1.readyTx, chan1.bufferedTx := true, false;
      chan1.rxOverflow := 0;
    }

    /** uartInit: both channels. */
    method UartInit()
      requires Valid()
      modifies chan0, chan1
      ensures Valid()
      ensures chan0.State() == ChannelInit(old(chan0.State()), rx0Size, tx0Size)
      ensures chan1.State() == ChannelInit(old(chan1.State()), rx1Size, tx1Size)
    {
      Uart0Init();
      Uart1Init();
    }

    /** uartSetRxHandler: installs (Some) or removes (None) the receive handler;
        a channel number out of range changes nothing. */
    method SetRxHandler(nUart: byte, rxFunc: Option<HandlerId>)
      requires Valid()
      modifies if nUart < 2 then {Chan(nUart)} else {}
      ensures Valid()
      ensures nUart < 2 ==> Chan(nUart).State() == old(Chan(nUart).State()).(rxFunc := rxFunc)
      ensures nUart >= 2 ==> chan0.State() == old(chan0.State()) && chan1.State() == old(chan1.State())
    {
      if nUart < 2 {
        Chan(nUart).rxFunc := rxFunc;
      }
    }

    /** uartSendByte (the wait for UDRE is not modelled). */
    method SendByte(nUart: byte, txData: byte)
      requires Valid() && nUart < 2
      modifies Chan(nUart)
      ensures Valid()
      ensures Chan(nUart).State() == ChannelSpec.SendByte(old(Chan(nUart).State()), txData)
    {
      var ch := Chan(nUart);
      ch.wire := ch.wire + [txData];
      ch.readyTx := false;
    }

    /** uart0SendByte */
    method Uart0SendByte(data: byte)
      requires Valid()
      modifies chan0
      ensures Valid()
      ensures chan0.State() == ChannelSpec.SendByte(old(chan0.State()), data)
    {
      SendByte(0, data);
    }

    /** uart1SendByte */
    method Uart1SendByte(data: byte)
      requires Valid()
      modifies chan1
      ensures Valid()
      ensures chan1.State() == ChannelSpec.SendByte(old(chan1.State()), data)
    {
      SendByte(1, data);
    }

    /** uartReceiveByte: Some(c) where the routine returns 1 and stores c. */
    method ReceiveByte(nUart: byte) returns (rxData: Option<byte>)
      requires Valid() && nUart < 2
      modifies Chan(nUart)
      ensures Valid()
      ensures (Chan(nUart).State(), rxData) == ChannelSpec.ReceiveByte(old(Chan(nUart).State()))
    {
      var ch := Chan(nUart);
      if ch.rxBuffer.size != 0 {
        if ch.rxBuffer.DataLength() != 0 {
          var (rest, c) := GetFromFront(ch.rxBuffer);
          ch.rxBuffer := rest;
          rxData := Some(c);
        } else {
          rxData := None;
        }
      } else {
        rxData := None;
      }
    }

    /** uart0GetByte */
    method Uart0GetByte() returns (r: int)
      requires Valid()
      modifies chan0
      ensures Valid()
      ensures (chan0.State(), r) == GetByte(old(chan0.State()))
    {
      var c := ReceiveByte(0);
      if c.Some? {
        r := c.value as int;
      } else {
        r := -1;
      }
    }

    /** uart1GetByte */
    method Uart1GetByte() returns (r: int)
      requires Valid()
      modifies chan1
      ensures Valid()
      ensures (chan1.State(), r) == GetByte(old(chan1.State()))
    {
      var c := ReceiveByte(1);
      if c.Some? {
        r := c.value as int;
      } else {
        r := -1;
      }
    }

    /** uartFlushReceiveBuffer */
    method FlushReceiveBuffer(nUart: byte)
      requires Valid() && nUart < 2
      modifies Chan(nUart)
      ensures Valid()
      ensures Chan(nUart).State() == ChannelSpec.FlushReceiveBuffer(old(Chan(nUart).State()))
    {
      var ch := Chan(nUart);
      ch.rxBuffer := Flush(ch.rxBuffer);
    }

    /** uartReceiveBufferIsEmpty */
    method ReceiveBufferIsEmpty(nUart: byte) returns (r: bool)
      requires Valid() && nUart < 2
      ensures r <==> Chan(nUart).rxBuffer.data == []
    {
      r := Chan(nUart).rxBuffer.DataLength() == 0;
    }

    /** uartTransmitPending */
    method TransmitPending(nUart: byte) returns (r: bool)
      requires Valid() && nUart < 2
      ensures r <==> !Chan(nUart).readyTx
    {
      r := !Chan(nUart).readyTx;
    }

    /** uartAddToTxBuffer */
    method AddToTxBuffer(nUart: byte, data: byte)
      requires Valid() && nUart < 2
      modifies Chan(nUart)
      ensures Valid()
      ensures Chan(nUart).State() == ChannelSpec.AddToTxBuffer(old(Chan(nUart).State()), data)
    {
      var ch := Chan(nUart);
      var (tx', _) := AddToEnd(ch.txBuffer, data);
      ch.txBuffer := tx';
    }

    /** uart0AddToTxBuffer */
    method Uart0AddToTxBuffer(data: byte)
      requires Valid()
      modifies chan0
      ensures Valid()
      ensures chan0.State() == ChannelSpec.AddToTxBuffer(old(chan0.State()), data)
    {
      AddToTxBuffer(0, data);
    }

    /** uart1AddToTxBuffer */
    method Uart1AddToTxBuffer(data: byte)
      requires Valid()
      modifies chan1
      ensures Valid()
      ensures chan1.State() == ChannelSpec.AddToTxBuffer(old(chan1.State()), data)
    {
      AddToTxBuffer(1, data);
    }

    /** uartSendTxBuffer; bufferGetFromFront needs a non-empty queue. */
    method SendTxBuffer(nUart: byte)
      requires Valid() && nUart < 2 && Chan(nUart).txBuffer.data != []
      modifies Chan(nUart)
      ensures Valid()
      ensures Chan(nUart).State() == ChannelSpec.SendTxBuffer(old(Chan(nUart).State()))
    {
      var ch := Chan(nUart);
      ch.bufferedTx := true;
      var (rest, first) := GetFromFront(ch.txBuffer);
      ch.txBuffer := rest;
      SendByte(nUart, first);
    }

    /** uartSendBuffer, including its byte-by-byte copy loop. `buffer` holds the
        caller's nBytes bytes. */
    method SendBuffer(nUart: byte, buffer: seq<byte>, nBytes: u16) returns (ok: bool)
      requires Valid() && nUart < 2 && nBytes as int <= |buffer|
      modifies Chan(nUart)
      ensures Valid()
      ensures (Chan(nUart).State(), ok) == ChannelSpec.SendBuffer(old(Chan(nUart).State()), buffer, nBytes)
    {
      var ch: Channel := Chan(nUart);
      ghost var s0 := ch.State();
      if (ch.txBuffer.DataLength() + nBytes as int) % 0x1_0000 < ch.txBuffer.size as int && nBytes != 0 {
        ghost var tx0 := ch.txBuffer;
        var first := buffer[0];
        var i: int := 0;
        while i < nBytes as int - 1
          invariant 0 <= i <= nBytes as int - 1
          invariant ch.txBuffer == AddAll(tx0, buffer[1..i + 1])
          modifies ch`txBuffer
        {
          AddAllSnoc(tx0, buffer[1..i + 1], buffer[i + 1]);
          assert buffer[1..i + 1] + [buffer[i + 1]] == buffer[1..i + 2];
          var (tx', _) := AddToEnd(ch.txBuffer, buffer[i + 1]);
          ch.txBuffer := tx';
          i := i + 1;
        }
        assert buffer[1..i + 1] == buffer[1..nBytes];
        ch.bufferedTx := true;
        SendByte(nUart, first);
        ok := true;
        assert HasHeadroom(s0, nBytes);
        assert ch.State() == ChannelSpec.SendByte(s0.(tx := AddAll(s0.tx, buffer[1..nBytes]), bufferedTx := true), first);
      } else {
        ok := false;
        assert !(HasHeadroom(s0, nBytes) && nBytes != 0);
      }
    }

    /** uartTransmitService, the transmit-complete interrupt routine. */
    method TransmitService(nUart: byte)
      requires Valid() && nUart < 2
      modifies Chan(nUart)
      ensures Valid()
      ensures Chan(nUart).State() == ChannelSpec.TransmitService(old(Chan(nUart).State()))
    {
      var ch := Chan(nUart);
      if ch.bufferedTx {
        if ch.txBuffer.DataLength() != 0 {
          var (rest, c) := GetFromFront(ch.txBuffer);
          ch.txBuffer := rest;
          ch.wire := ch.wire + [c];
        } else {
          ch.bufferedTx := false;
          ch.readyTx := true;
        }
      } else {
        ch.readyTx := true;
      }
    }

    /** uartReceiveService, the receive-complete interrupt routine; `c` is the
        byte read from UDRn. */
    method ReceiveService(nUart: byte, c: byte)
      requires Valid() && nUart < 2
      modifies Chan(nUart)
      ensures Valid()
      ensures Chan(nUart).State() == ChannelSpec.ReceiveService(old(Chan(nUart).State()), c)
    {
      var ch := Chan(nUart);
      if ch.rxFunc.Some? {
        ch.delivered := ch.delivered + [Delivery(ch.rxFunc.value, c)];
      } else {
        var (rx', stored) := AddToEnd(ch.rxBuffer, c);
        ch.rxBuffer := rx';
        if !stored {
          ch.rxOverflow := AddWrap16(ch.rxOverflow, 1);
        }
      }
    }
  }
}
