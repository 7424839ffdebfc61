// Which bytes a call of the data callback gets, and when the stream is over.
module HttpDelivery {
  import opened Wrappers
  import opened Sequences
  import opened History
  import opened HttpStream
  import opened HttpStreamRuns

  // What is queued for a call: the header of the front message, if the stream starts here, and then all
  // that is queued, but for the rest of a partly emitted message if the client restarts right after the
  // header.
  ghost function Due(q: Queue, c: Call): seq<Byte> {
    if q == [] then []
    else
      (if c.base == 0 && c.pos == 0 && c.buf == [] then WavHeader(q[0].format) else [])
      + Pending(if c.base + c.pos == 44 && q[0].offs != 0 && !c.fixed then q[1..] else q)
  }

  // The call gets the first of them, as many as it has room for, and the others stay queued.
  ghost predicate Delivers(q: Queue, c: Call, r: Outcome)
    requires |c.buf| <= c.max
  {
    var due, room := Due(q, c), c.max - |c.buf|;
    var n := if room < |due| then room else |due|;
    && r.call.buf == c.buf + due[..n]
    && (room > 0 ==> Pending(r.queue) == due[n..])
  }

  // No byte is skipped on q.
  lemma AllTo(q: Queue, c: Call)
    requires GoodQueue(q) && GoodCall(c)
    requires c.base + c.pos != 44 || c.fixed || q == [] || q[0].offs == 0
    ensures var fs := FillFates(q, c, 0); forall i | 0 <= i < |fs| :: fs[i] == To(0)
  {
    if c.base + c.pos != 44 || c.fixed {
      FillLossless(q, c, 0);
    } else {
      var fs := FillFates(q, c, 0);
      FillLostIff(q, c, 0);
      FillAccounts(q, c, 0);
      forall i | 0 <= i < |fs| ensures fs[i] == To(0) {
        assert fs[i] in fs;
      }
    }
  }

  lemma FillWhole(q: Queue, c: Call)
    requires GoodQueue(q) && GoodCall(c)
    requires c.base + c.pos != 44 || c.fixed || q == [] || q[0].offs == 0
    ensures Delivers(q, c, Fill(q, c))
  {
    if |c.buf| < c.max && q != [] {
      var k := FillFirst(q, c);
      TakenFirst(c.buf, Head(q[0], c), Pending(q), k, Pending(Fill(q, c).queue), c.max);
      assert Due(q, c) == Head(q[0], c) + Pending(q);
    } else {
      NoMore(c.buf);
      assert Due(q, c)[0..] == Due(q, c);
    }
  }

  // How many queued bytes the call gets.
  lemma FillFirst(q: Queue, c: Call) returns (k: nat)
    requires GoodQueue(q) && GoodCall(c) && |c.buf| < c.max && q != []
    requires c.base + c.pos != 44 || c.fixed || q[0].offs == 0
    ensures var r := Fill(q, c);
            && k <= |Pending(q)| && Pending(r.queue) == Pending(q)[k..]
            && r.call.buf == c.buf + Head(q[0], c) + Pending(q)[..k]
            && (|r.call.buf| == c.max || Pending(r.queue) == [])
  {
    var fs := FillFates(q, c, 0);
    AllTo(q, c);
    FillAccounts(q, c, 0);
    forall i | 0 <= i < |fs| ensures fs[i] == To(0) {
      assert FillFates(q, c, 0)[i] == To(0);
    }
    KeepAll(Pending(q), fs, To(0));
    k := |fs|;
  }

  lemma TakenFirst(buf: seq<Byte>, head: seq<Byte>, all: seq<Byte>, k: nat, rest: seq<Byte>, max: nat)
    requires k <= |all| && rest == all[k..] && |buf| <= max && |buf + head + all[..k]| <= max
    requires |buf + head + all[..k]| == max || rest == []
    ensures var due, room := head + all, max - |buf|;
            var n := if room < |due| then room else |due|;
            buf + head + all[..k] == buf + due[..n] && rest == due[n..]
  {
    var due := head + all;
    assert due[..|head| + k] == head + all[..k] && due[|head| + k..] == all[k..];
    Associate(buf, head, all[..k]);
  }

  lemma FillDelivers(q: Queue, c: Call)
    requires GoodQueue(q) && GoodCall(c)
    ensures Delivers(q, c, Fill(q, c))
  {
    if |c.buf| < c.max && q != [] && Skips(q[0], c) {
      SkipRound(q, c);
      RoundStays(q, c);
      var d := c.(fixed := true);
      NoMore(c.buf);
      assert Round(q, c) == Outcome(q[1..], d);
      FillWhole(q[1..], d);
      assert Due(q, c) == [] + Pending(q[1..]) == Due(q[1..], d);
    } else if |c.buf| < c.max {
      FillWhole(q, c);
    } else {
      NoMore(c.buf);
    }
  }

  // All in all it has so many of its bytes then.
  lemma FillGets(q: Queue, c: Call)
    requires GoodQueue(q) && GoodCall(c)
    ensures var buf, r := c.buf + Due(q, c), Fill(q, c);
            r.call.buf == if |buf| >= c.max then buf[..c.max] else buf
  {
    var due, room := Due(q, c), c.max - |c.buf|;
    FillDelivers(q, c);
    if room <= |due| {
      assert (c.buf + due)[..c.max] == c.buf + due[..room];
    } else {
      assert due[..|due|] == due;
    }
  }

  // The client after a stretch of its call: either it got all that it asked for, or it waits with
  // all that there was.
  ghost predicate Got(cl: Client, cl1: Client, max: nat, buf: seq<Byte>, rest: Queue) {
    if |buf| >= max then cl1.stream == cl.stream + buf[..max] && cl1.call == None
    else cl1.stream == cl.stream && cl1.call.Some? && cl1.call.value.buf == buf && rest == []
  }

  lemma ServedGot(s: State, id: nat, c: Call, q: Queue)
    requires id in s.clients && GoodQueue(q) && GoodCall(c)
    ensures var s1 := Served(s, id, c, q);
            id in s1.clients && Got(s.clients[id], s1.clients[id], c.max, c.buf + Due(q, c), s1.queue)
  {
    FillGets(q, c);
  }

  // --- over a run ---

  // A client whose call waits has not reached the end.
  ghost predicate WaitsBefore(s: State) {
    forall id | id in s.clients && s.clients[id].call.Some? :: s.clients[id].base + |s.clients[id].stream| < 2000000044
  }

  lemma StepWaits(s: State, step: Step)
    requires Safe(s, step) && Allowed(s, step) && WaitsBefore(s)
    ensures WaitsBefore(Apply(s, step))
  {
  }

  lemma {:induction false} RunWaits(states: seq<State>, steps: seq<Step>, i: nat)
    requires Run(states, steps) && i < |states|
    ensures WaitsBefore(states[i])
  {
    if i > 0 {
      RunWaits(states, steps, i - 1);
      assert Next(states[i - 1], steps[i - 1], states[i]);
      StepWaits(states[i - 1], steps[i - 1]);
    }
  }

  // Before the announced size and the header are through, a call gets what is due to it: all that was
  // asked for, if there is enough, and otherwise it waits with what there is.
  lemma BeginDelivers(states: seq<State>, steps: seq<Step>, i: nat, id: nat, max: nat)
    requires Run(states, steps) && i < |steps| && steps[i] == Begin(id, max) && id in states[i].clients
    requires states[i].clients[id].base + |states[i].clients[id].stream| < 2000000044
    ensures var cl := states[i].clients[id];
            var due := Due(states[i].queue, Call(cl.base, |cl.stream|, max, false, []));
            id in states[i + 1].clients && Got(cl, states[i + 1].clients[id], max, due, states[i + 1].queue)
  {
    var cl := states[i].clients[id];
    var c := Call(cl.base, |cl.stream|, max, false, []);
    assert Next(states[i], steps[i], states[i + 1]);
    ServedGot(states[i], id, c, states[i].queue);
    assert [] + Due(states[i].queue, c) == Due(states[i].queue, c);
  }

  // A call that waited goes on in the same way.
  lemma WakeDelivers(states: seq<State>, steps: seq<Step>, i: nat, id: nat)
    requires Run(states, steps) && i < |steps| && steps[i] == Wake(id) && id in states[i].clients
    requires states[i].clients[id].call.Some?
    ensures var cl := states[i].clients[id];
            var c, q := cl.call.value, states[i].queue;
            var due := Due(if q != [] && !q[0].hasBuf then q[1..] else q, c);
            && id in states[i + 1].clients
            && Got(cl, states[i + 1].clients[id], c.max, c.buf + due, states[i + 1].queue)
  {
    var c, q := states[i].clients[id].call.value, states[i].queue;
    assert Next(states[i], steps[i], states[i + 1]);
    RunGood(states, steps, i, id);
    WokenGood(q);
    ServedGot(states[i], id, c, Woken(q));
  }

  // From then on nobody gets anything more.
  lemma NothingAfterEnd(states: seq<State>, steps: seq<Step>, i: nat, id: nat)
    requires Run(states, steps) && i < |steps| && id in states[i].clients
    requires states[i].clients[id].base + |states[i].clients[id].stream| >= 2000000044
    ensures id in states[i + 1].clients && states[i + 1].clients[id] == states[i].clients[id]
  {
    assert Next(states[i], steps[i], states[i + 1]);
    RunWaits(states, steps, i);
  }
}
