// The queue between the songcast receiver and the HTTP connections, with the code that runs under
// its lock. A callback that waits gives its call back as it stands.
module HttpGate {
  import opened HttpStream
  import opened HttpDelivery
  import Runs = HttpStreamRuns

  datatype Reply = EndOfStream | Data(buf: seq<Byte>) | Waiting(call: Call)

  class HttpGate {
    var dataqueue: Queue

    ghost predicate Valid()
      reads this
    {
      GoodQueue(dataqueue) && |dataqueue| <= MAX_QUEUED
    }

    constructor ()
      ensures Valid() && dataqueue == []
    {
      dataqueue := [];
    }

    // The body of the loop of audioEater, for a message just taken.
    method Eat(tsk: Message)
      requires Valid() && GoodMessage(tsk) && tsk.offs == 0
      modifies this
      ensures Valid()
      ensures dataqueue == Pushed(old(dataqueue), tsk)
      ensures dataqueue == old(if |dataqueue| > 2 then dataqueue[|dataqueue| - 2..] else dataqueue) + [tsk]
    {
      LastTwo(dataqueue);
      while |dataqueue| > 2
        invariant GoodQueue(dataqueue) && Trimmed(dataqueue) == Trimmed(old(dataqueue))
        decreases |dataqueue|
      {
        dataqueue := dataqueue[1..];
      }
      Runs.PendingSnoc(dataqueue, tsk);
      dataqueue := dataqueue + [tsk];
    }

    // data_generator, until it returns or waits.
    method DataGenerator(base: nat, pos: nat, max: nat) returns (r: Reply)
      requires Valid() && (base == 0 && pos == 0 ==> max >= HEADER_SIZE)
      modifies this
      ensures Valid()
      ensures if Ended(base, pos) then r == EndOfStream && dataqueue == old(dataqueue)
              else Served(r, dataqueue, Fill(old(dataqueue), Call(base, pos, max, false, [])))
      // The stream is over past the announced size and the header; before that a call returns the
      // bytes that are due to it if there are enough, and waits if not
      ensures r == EndOfStream <==> base + pos >= 2000000044
      ensures var due := old(Due(dataqueue, Call(base, pos, max, false, [])));
              && (r.Data? <==> base + pos < 2000000044 && |due| >= max)
              && (r.Data? ==> r.buf == due[..max])
              && (r.Waiting? ==> r.call.buf == due)
    {
      ghost var c := Call(base, pos, max, false, []);
      FillGets(dataqueue, c);
      assert [] + Due(dataqueue, c) == Due(dataqueue, c);
      if base + pos >= DATABYTES + 44 {
        return EndOfStream;
      }
      r := FillBuffer(Call(base, pos, max, false, []));
    }

    // data_generator again, after the wait.
    method Wakeup(c: Call) returns (r: Reply)
      requires Valid() && GoodCall(c) && |c.buf| < c.max
      modifies this
      ensures Valid()
      ensures GoodQueue(Woken(old(dataqueue))) && Served(r, dataqueue, Fill(Woken(old(dataqueue)), c))
      // It returns what it had and what is due now, if that is enough, and waits with it if not
      ensures var q := old(dataqueue);
              var buf := c.buf + Due(if q != [] && !q[0].hasBuf then q[1..] else q, c);
              && (r.Data? <==> |buf| >= c.max) && r != EndOfStream
              && (r.Data? ==> r.buf == buf[..c.max])
              && (r.Waiting? ==> r.call.buf == buf)
    {
      Runs.WokenGood(dataqueue);
      FillGets(Woken(dataqueue), c);
      if dataqueue != [] && !dataqueue[0].hasBuf {
        dataqueue := dataqueue[1..];
      }
      r := FillBuffer(c);
    }

    // The loop of data_generator.
    method FillBuffer(c: Call) returns (r: Reply)
      requires Valid() && GoodCall(c)
      modifies this
      ensures Valid()
      ensures Served(r, dataqueue, Fill(old(dataqueue), c))
    {
      var c1 := c;
      while |c1.buf| < c.max
        invariant Valid() && GoodCall(c1) && c1.max == c.max
        invariant Fill(dataqueue, c1) == Fill(old(dataqueue), c)
        decreases |dataqueue|, c.max - |c1.buf|
      {
        if dataqueue == [] {
          return Waiting(c1);
        }
        Runs.RoundStays(dataqueue, c1);
        c1 := EmitFront(c1);
      }
      r := Data(c1.buf);
    }

    // One round of the loop, with a message at the front.
    method EmitFront(c: Call) returns (c1: Call)
      requires Valid() && dataqueue != [] && GoodCall(c) && |c.buf| < c.max
      modifies this
      ensures dataqueue == Round(old(dataqueue), c).queue && c1 == Round(old(dataqueue), c).call
    {
      var bytes, buf, offsetfixed := |c.buf|, c.buf, c.fixed;
      var m := dataqueue[0];
      if c.base + c.pos == 44 && m.offs != 0 && !offsetfixed {
        m := m.(offs := |m.data|);
        offsetfixed := true;
      }
      if c.base == 0 && c.pos == 0 && bytes == 0 {
        buf := buf + WavHeader(m.format);
        bytes := bytes + 44;
      }
      var newbytes := if c.max - bytes < |m.data| - m.offs then c.max - bytes else |m.data| - m.offs;
      buf := buf + m.data[m.offs..m.offs + newbytes];
      m := m.(offs := m.offs + newbytes);
      bytes := bytes + newbytes;
      if m.offs == |m.data| {
        dataqueue := dataqueue[1..];
      } else {
        dataqueue := [m] + dataqueue[1..];
      }
      c1 := c.(fixed := offsetfixed, buf := buf);
    }
  }

  // Trimming leaves the last two messages.
  lemma {:induction false} LastTwo(q: Queue)
    ensures Trimmed(q) == if |q| > 2 then q[|q| - 2..] else q
  {
    if |q| > 2 {
      LastTwo(q[1..]);
      assert |q| > 3 ==> q[1..][|q| - 3..] == q[|q| - 2..];
    }
  }

  // A call is over, or waits on an empty queue.
  ghost predicate Served(r: Reply, q: Queue, goal: Outcome) {
    && q == goal.queue
    && r == if |goal.call.buf| == goal.call.max then Data(goal.call.buf) else Waiting(goal.call)
  }
}
