/** The byte queue (cBuffer) that the dual UART driver keeps for each receive and
    each transmit direction, seen abstractly: a fixed capacity `size` and the
    bytes currently queued, oldest first; `datalength` is the length of `data`.
    The circular-array implementation in buffer.c is not part of this model; the
    operations below state the behaviour the driver relies on. */
module Buffer {
  import opened Bytes

  datatype CBuffer = CBuffer(size: u16, data: seq<byte>)
  {
    /** The occupancy never exceeds the capacity. */
    predicate Valid()
    {
      |data| <= size as int
    }

    /** cBuffer.datalength */
    function DataLength(): (n: nat)
      ensures n == |data|
    {
      |data|
    }

    /** Free slots left; zero for a buffer that is already over-full. */
    function Room(): (n: nat)
      ensures Valid() ==> |data| + n == size as int
    {
      if |data| <= size as int then size as int - |data| else 0
    }
  }

  /** bufferInit: an empty queue with the given capacity. */
  function Init(size: u16): (b: CBuffer)
    ensures b.Valid() && b.size == size && b.data == []
  {
    CBuffer(size, [])
  }

  /** bufferAddToEnd: appends `x` when there is room, and reports whether it did.
      A full queue is left as it is: nothing stored is overwritten. */
  function AddToEnd(b: CBuffer, x: byte): (r: (CBuffer, bool))
    ensures r.1 <==> b.DataLength() < b.size as int
    ensures r.0.size == b.size
    ensures r.0.data == if r.1 then b.data + [x] else b.data
    ensures b.Valid() ==> r.0.Valid()
  {
    if b.DataLength() < b.size as int then (b.(data := b.data + [x]), true) else (b, false)
  }

  /** bufferGetFromFront: removes and returns the oldest byte. */
  function GetFromFront(b: CBuffer): (r: (CBuffer, byte))
    requires b.data != []
    ensures [r.1] + r.0.data == b.data
    ensures r.0.size == b.size
    ensures b.Valid() ==> r.0.Valid()
  {
    (b.(data := b.data[1..]), b.data[0])
  }

  /** bufferFlush: discards every queued byte; the capacity stays. */
  function Flush(b: CBuffer): (r: CBuffer)
    ensures r.Valid() && r.size == b.size && r.data == []
  {
    b.(data := [])
  }

  /** bufferAddToEnd applied to each byte of `xs` in turn, each result ignored:
      the bytes that fit are appended in order, the rest are dropped. */
  function AddAll(b: CBuffer, xs: seq<byte>): (r: CBuffer)
    ensures r.size == b.size
    ensures r.data == b.data + xs[..Min(|xs|, b.Room())]
    ensures b.Valid() ==> r.Valid()
    decreases |xs|
  {
    if xs == [] then b else AddAll(AddToEnd(b, xs[0]).0, xs[1..])
  }

  /** Adding one more byte after a run of additions is the same as adding the
      longer run: the loop that copies a block one byte at a time computes AddAll. */
  lemma AddAllSnoc(b: CBuffer, xs: seq<byte>, x: byte)
    ensures AddAll(b, xs + [x]) == AddToEnd(AddAll(b, xs), x).0
  {
  }
}
