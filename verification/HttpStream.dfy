// The HTTP side: calls of the data callback eat the queued audio messages.
module HttpStream {
  datatype Format = Format(bits: nat, chans: nat, freq: nat)

  // A byte of audio, or one of the header written for a format.
  datatype Byte = Audio(value: nat) | Header(format: Format, index: nat)

  // Total stream size announced, without the header.
  const DATABYTES := 2000000000
  const HEADER_SIZE := 44
  const MAX_QUEUED := 3

  function WavHeader(f: Format): (h: seq<Byte>)
    ensures |h| == 44 && forall i | 0 <= i < 44 :: h[i] == Header(f, i)
  {
    seq(HEADER_SIZE, i requires 0 <= i => Header(f, i))
  }

  // --- messages and calls ---

  // hasBuf is false for the message without a buffer; offs is how much was emitted already.
  datatype Message = Message(format: Format, hasBuf: bool, data: seq<Byte>, offs: nat)

  type Queue = seq<Message>

  ghost predicate GoodMessage(m: Message) { m.offs <= |m.data| && (m.hasBuf || m.data == []) }

  // Only the front message can be partly emitted.
  ghost predicate GoodQueue(q: Queue) {
    q != [] ==> GoodMessage(q[0]) && Untouched(q[1..])
  }

  ghost predicate Untouched(q: Queue) {
    q != [] ==> GoodMessage(q[0]) && q[0].offs == 0 && Untouched(q[1..])
  }

  // The bytes that are still to come.
  ghost function Left(m: Message): seq<Byte> {
    if m.offs <= |m.data| then m.data[m.offs..] else []
  }

  ghost function Pending(q: Queue): seq<Byte> {
    if q == [] then [] else Left(q[0]) + Pending(q[1..])
  }

  // One call of the callback: base and pos say where in the stream it is.
  datatype Call = Call(base: nat, pos: nat, max: nat, fixed: bool, buf: seq<Byte>)

  // The callback must get room for the header.
  predicate GoodCall(c: Call) {
    && |c.buf| <= c.max
    && (c.base == 0 && c.pos == 0 ==> c.max >= HEADER_SIZE && (c.buf == [] || |c.buf| >= HEADER_SIZE))
  }

  predicate Ended(base: nat, pos: nat) { base + pos >= DATABYTES + HEADER_SIZE }

  // --- one round of the loop of the callback ---

  // The rest of a partly emitted message is skipped when a client restarts after the header.
  predicate Skips(m: Message, c: Call) { c.base + c.pos == HEADER_SIZE && m.offs != 0 && !c.fixed }

  predicate NeedsHeader(c: Call) { c.base == 0 && c.pos == 0 && c.buf == [] }

  function Head(m: Message, c: Call): seq<Byte> { if NeedsHeader(c) then WavHeader(m.format) else [] }

  function Min(a: nat, b: nat): nat { if a < b then a else b }

  // How many bytes of m a round emits.
  function Emitted(m: Message, c: Call): (n: nat)
    requires m.offs <= |m.data| && GoodCall(c)
    ensures n <= |m.data| - m.offs
  {
    Min(c.max - |c.buf| - |Head(m, c)|, if Skips(m, c) then 0 else |m.data| - m.offs)
  }

  // The front message emitted up to offs.
  function Advanced(q: Queue, offs: nat): Queue
    requires q != []
  {
    if offs == |q[0].data| then q[1..] else [q[0].(offs := offs)] + q[1..]
  }

  datatype Outcome = Outcome(queue: Queue, call: Call)

  function Round(q: Queue, c: Call): (r: Outcome)
    requires q != [] && q[0].offs <= |q[0].data| && GoodCall(c)
    ensures GoodCall(r.call) && r.call.max == c.max && r.call.base == c.base && r.call.pos == c.pos
  {
    var m := q[0];
    var n := Emitted(m, c);
    var from := if Skips(m, c) then |m.data| else m.offs;
    var c1 := c.(fixed := c.fixed || Skips(m, c), buf := c.buf + Head(m, c) + m.data[from..from + n]);
    Outcome(Advanced(q, from + n), c1)
  }

  // The loop until the call is served or the queue is empty.
  function Fill(q: Queue, c: Call): (r: Outcome)
    requires GoodQueue(q) && GoodCall(c)
    ensures GoodCall(r.call) && r.call.max == c.max && r.call.base == c.base && r.call.pos == c.pos
    ensures |r.call.buf| == c.max || r.queue == []
    decreases |q|, c.max - |c.buf|
  {
    if |c.buf| == c.max || q == [] then Outcome(q, c)
    else
      var r := Round(q, c);
      Fill(r.queue, r.call)
  }

  // --- what becomes of the bytes ---

  // Each byte goes to one client, or is skipped.
  datatype Fate = To(client: nat) | Lost

  ghost function Same(n: nat, f: Fate): seq<Fate> { seq(n, _ => f) }

  ghost function RoundFates(q: Queue, c: Call, id: nat): seq<Fate>
    requires q != [] && q[0].offs <= |q[0].data| && GoodCall(c)
  {
    var m := q[0];
    if Skips(m, c) then Same(|m.data| - m.offs, Lost) else Same(Emitted(m, c), To(id))
  }

  ghost function FillFates(q: Queue, c: Call, id: nat): seq<Fate>
    requires GoodQueue(q) && GoodCall(c)
    decreases |q|, c.max - |c.buf|
  {
    if |c.buf| == c.max || q == [] then []
    else
      var r := Round(q, c);
      RoundFates(q, c, id) + FillFates(r.queue, r.call, id)
  }

  // Makes room for one more message, at the cost of the oldest.
  function Trimmed(q: Queue): (r: Queue)
    ensures |r| < MAX_QUEUED
  {
    if |q| >= MAX_QUEUED then Trimmed(q[1..]) else q
  }

  function Pushed(q: Queue, m: Message): Queue { Trimmed(q) + [m] }

  // After waiting, a message without buffer is thrown away.
  function Woken(q: Queue): Queue { if q != [] && !q[0].hasBuf then q[1..] else q }
}
