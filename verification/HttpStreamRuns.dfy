// Any number of connections eating one queue, and what each of them gets over a whole run.
module HttpStreamRuns {
  import opened Wrappers
  import opened Sequences
  import opened History
  import opened HttpStream

  // stream is what the calls that are over returned; head is the header in it.
  datatype Client = Client(base: nat, head: seq<Byte>, stream: seq<Byte>, call: Option<Call>)

  // pushed is every byte ever queued, fates what became of those that left.
  datatype State = State(queue: Queue, pushed: seq<Byte>, fates: seq<HttpStream.Fate>, clients: map<nat, Client>)

  const INITIAL := State([], [], [], map[])

  datatype Step = Push(m: Message) | Connect(id: nat, base: nat) | Begin(id: nat, max: nat) | Wake(id: nat)

  ghost predicate Allowed(s: State, step: Step) {
    match step
    case Push(m) => GoodMessage(m) && m.offs == 0
    case Connect(id, base) => id !in s.clients
    case Begin(id, max) =>
      && id in s.clients && s.clients[id].call == None
      && (s.clients[id].base == 0 && s.clients[id].stream == [] ==> max >= HEADER_SIZE)
    case Wake(id) => id in s.clients && s.clients[id].call != None
  }

  // What keeps the steps defined; every state that is reached has it.
  ghost predicate Safe(s: State, step: Step) {
    && GoodQueue(s.queue)
    && (step.Wake? && step.id in s.clients && s.clients[step.id].call.Some? ==> GoodCall(s.clients[step.id].call.value))
  }

  ghost function Apply(s: State, step: Step): State
    requires Safe(s, step) && Allowed(s, step)
  {
    match step
    case Push(m) =>
      s.(queue := Pushed(s.queue, m), pushed := s.pushed + m.data,
         fates := s.fates + Same(TrimmedBytes(s.queue), HttpStream.Lost))
    case Connect(id, base) => s.(clients := s.clients[id := Client(base, [], [], None)])
    case Begin(id, max) =>
      var cl := s.clients[id];
      if Ended(cl.base, |cl.stream|) then s
      else Served(s, id, Call(cl.base, |cl.stream|, max, false, []), s.queue)
    case Wake(id) =>
      WokenGood(s.queue);
      Served(s, id, s.clients[id].call.value, Woken(s.queue))
  }

  ghost function TrimmedBytes(q: Queue): nat {
    if |q| >= MAX_QUEUED then |Left(q[0])| + TrimmedBytes(q[1..]) else 0
  }

  // The call c of client id goes on with queue q, to its end or to the next wait.
  ghost function Served(s: State, id: nat, c: Call, q: Queue): State
    requires id in s.clients && GoodQueue(q) && GoodCall(c)
  {
    State(Fill(q, c).queue, s.pushed, s.fates + FillFates(q, c, id),
          s.clients[id := ServedClient(s.clients[id], c, q)])
  }

  ghost function FillHead(q: Queue, c: Call): seq<Byte> {
    if |c.buf| < c.max && q != [] then Head(q[0], c) else []
  }

  lemma WokenGood(q: Queue)
    requires GoodQueue(q)
    ensures GoodQueue(Woken(q)) && Pending(Woken(q)) == Pending(q) && |Woken(q)| <= |q|
  {
    if q != [] && !q[0].hasBuf {
      PopFront(q);
      assert |Left(q[0])| == 0;
      assert Pending(q)[0..] == Pending(q);
    }
  }

  // --- what one round, and one stretch of a call, do ---

  lemma KeepSame<T>(xs: seq<T>, n: nat, g: HttpStream.Fate, f: HttpStream.Fate)
    requires n <= |xs|
    ensures Keep(xs, Same(n, g), f) == if f == g then xs[..n] else []
  {
    KeepExtend(xs, [], n, g, f);
    assert [] + Same(n, g) == Same(n, g);
  }

  lemma {:induction false} KeepNone<T, F>(xs: seq<T>, fates: seq<F>, f: F)
    requires |fates| <= |xs| && f !in fates
    ensures Keep(xs, fates, f) == []
    decreases |fates|
  {
    if fates != [] {
      var n := |fates| - 1;
      assert fates[n] in fates;
      KeepNone(xs, fates[..n], f);
    }
  }

  // From all pending bytes, fs tells which went to buf, after head, and rest is what remains.
  ghost predicate Ledger(all: seq<Byte>, fs: seq<HttpStream.Fate>, rest: seq<Byte>, id: nat,
                         buf: seq<Byte>, head: seq<Byte>, buf1: seq<Byte>) {
    && |fs| <= |all| && rest == all[|fs|..]
    && buf1 == buf + head + Keep(all, fs, To(id))
    && forall i | 0 <= i < |fs| :: fs[i] in {To(id), Lost}
  }

  lemma LedgerConcat(all: seq<Byte>, fs: seq<HttpStream.Fate>, rest: seq<Byte>,
                     more: seq<HttpStream.Fate>, rest1: seq<Byte>, id: nat,
                     buf: seq<Byte>, head: seq<Byte>, buf1: seq<Byte>, buf2: seq<Byte>)
    requires Ledger(all, fs, rest, id, buf, head, buf1) && Ledger(rest, more, rest1, id, buf1, [], buf2)
    ensures Ledger(all, fs + more, rest1, id, buf, head, buf2)
  {
    KeepConcat(all, fs, more, To(id));
    var a, b := Keep(all, fs, To(id)), Keep(rest, more, To(id));
    assert buf + head + a + [] + b == buf + head + (a + b);
  }

  ghost predicate Accounted(q: Queue, c: Call, id: nat) {
    q != [] && GoodQueue(q) && GoodCall(c) &&
    var r := Round(q, c);
    && GoodQueue(r.queue) && |r.queue| <= |q|
    && Ledger(Pending(q), RoundFates(q, c, id), Pending(r.queue), id, c.buf, Head(q[0], c), r.call.buf)
  }

  lemma SkipAccounts(q: Queue, c: Call, id: nat)
    requires q != [] && GoodQueue(q) && GoodCall(c) && |c.buf| < c.max && Skips(q[0], c)
    ensures Accounted(q, c, id)
  {
    var n := |Left(q[0])|;
    SkipRound(q, c);
    AdvanceAccounts(q, n);
    LedgerSame(Pending(q), n, Lost, id, c.buf, Head(q[0], c));
  }

  lemma EmitAccounts(q: Queue, c: Call, id: nat)
    requires q != [] && GoodQueue(q) && GoodCall(c) && |c.buf| < c.max && !Skips(q[0], c)
    ensures Accounted(q, c, id)
  {
    var n := Emitted(q[0], c);
    AdvanceAccounts(q, n);
    LedgerSame(Pending(q), n, To(id), id, c.buf, Head(q[0], c));
    EmitRound(q, c, n);
  }

  lemma LedgerSame(all: seq<Byte>, n: nat, g: HttpStream.Fate, id: nat, buf: seq<Byte>, head: seq<Byte>)
    requires n <= |all| && g in {To(id), Lost}
    ensures Ledger(all, Same(n, g), all[n..], id, buf, head, if g == Lost then buf + head else buf + head + all[..n])
  {
    KeepSame(all, n, g, To(id));
    NoMore(buf + head);
  }

  lemma EmitRound(q: Queue, c: Call, n: nat)
    requires q != [] && GoodQueue(q) && GoodCall(c) && |c.buf| < c.max && !Skips(q[0], c) && n == Emitted(q[0], c)
    ensures var m := q[0];
            Round(q, c) == Outcome(Advanced(q, m.offs + n), c.(buf := c.buf + Head(m, c) + m.data[m.offs..m.offs + n]))
  {
  }

  // No second header.
  lemma HeaderOnce(q: Queue, c: Call)
    requires q != [] && GoodQueue(q) && GoodCall(c)
    ensures FillHead(Round(q, c).queue, Round(q, c).call) == []
  {
  }

  lemma SkipRound(q: Queue, c: Call)
    requires q != [] && GoodQueue(q) && GoodCall(c) && |c.buf| < c.max && Skips(q[0], c)
    ensures Round(q, c) == Outcome(Advanced(q, |q[0].data|), c.(fixed := true, buf := c.buf + Head(q[0], c)))
  {
    var d := q[0].data;
    assert d[|d|..|d| + 0] == [];
  }

  lemma AdvanceAccounts(q: Queue, n: nat)
    requires q != [] && GoodQueue(q) && n <= |Left(q[0])|
    ensures var q1 := Advanced(q, q[0].offs + n);
            && GoodQueue(q1) && |q1| <= |q|
            && n <= |Pending(q)| && Pending(q1) == Pending(q)[n..]
            && Pending(q)[..n] == q[0].data[q[0].offs..q[0].offs + n]
  {
    FrontSlice(q, n);
    if q[0].offs + n == |q[0].data| {
      PopFront(q);
    } else {
      EmitPart(q, n);
    }
  }

  lemma FrontSlice(q: Queue, n: nat)
    requires q != [] && GoodMessage(q[0]) && n <= |Left(q[0])|
    ensures n <= |Pending(q)| && Pending(q)[..n] == q[0].data[q[0].offs..q[0].offs + n]
    ensures Pending(q)[n..] == Left(q[0])[n..] + Pending(q[1..])
  {
    SplitFirst(Left(q[0]), Pending(q[1..]), n);
    LeftSplit(q[0], n);
  }

  lemma LeftSplit(m: Message, n: nat)
    requires GoodMessage(m) && n <= |Left(m)|
    ensures Left(m)[..n] == m.data[m.offs..m.offs + n]
    ensures Left(m)[n..] == Left(m.(offs := m.offs + n))
  {
    Twice(m.data, m.offs, n);
  }

  lemma PopFront(q: Queue)
    requires q != [] && GoodQueue(q)
    ensures GoodQueue(q[1..]) && Pending(q[1..]) == Pending(q)[|Left(q[0])|..]
  {
    FrontSlice(q, |Left(q[0])|);
    assert [] + Pending(q[1..]) == Pending(q[1..]);
  }

  lemma EmitPart(q: Queue, n: nat)
    requires q != [] && GoodQueue(q) && n <= |Left(q[0])|
    ensures var q1 := [q[0].(offs := q[0].offs + n)] + q[1..];
            GoodQueue(q1) && |q1| == |q| && Pending(q1) == Pending(q)[n..]
  {
    FrontSlice(q, n);
    LeftSplit(q[0], n);
    FrontReplaced(q, q[0].(offs := q[0].offs + n));
  }

  lemma FrontReplaced(q: Queue, m: Message)
    requires q != [] && GoodQueue(q) && GoodMessage(m)
    ensures GoodQueue([m] + q[1..]) && Pending([m] + q[1..]) == Left(m) + Pending(q[1..])
  {
    assert ([m] + q[1..])[1..] == q[1..];
  }

  lemma RoundStays(q: Queue, c: Call)
    requires q != [] && GoodQueue(q) && GoodCall(c) && |c.buf| < c.max
    ensures var r := Round(q, c); GoodQueue(r.queue) && |r.queue| <= |q| && Fill(r.queue, r.call) == Fill(q, c)
  {
    if Skips(q[0], c) {
      SkipAccounts(q, c, 0);
    } else {
      EmitAccounts(q, c, 0);
    }
  }

  lemma {:induction false} FillAccounts(q: Queue, c: Call, id: nat)
    requires GoodQueue(q) && GoodCall(c)
    ensures var r := Fill(q, c);
            && GoodQueue(r.queue) && |r.queue| <= |q|
            && Ledger(Pending(q), FillFates(q, c, id), Pending(r.queue), id, c.buf, FillHead(q, c), r.call.buf)
    decreases |q|, c.max - |c.buf|
  {
    if |c.buf| < c.max && q != [] {
      var r := Round(q, c);
      if Skips(q[0], c) {
        SkipAccounts(q, c, id);
      } else {
        EmitAccounts(q, c, id);
      }
      HeaderOnce(q, c);
      FillAccounts(r.queue, r.call, id);
      LedgerConcat(Pending(q), RoundFates(q, c, id), Pending(r.queue), FillFates(r.queue, r.call, id),
                   Pending(Fill(q, c).queue), id, c.buf, Head(q[0], c), r.call.buf, Fill(q, c).call.buf);
    }
  }

  // --- runs ---

  // Everything that a client was or is being given.
  ghost function Total(cl: Client): seq<Byte> {
    cl.stream + if cl.call.Some? then cl.call.value.buf else []
  }

  ghost predicate GoodHead(cl: Client) {
    && (cl.head == [] || (cl.base == 0 && exists f: Format :: cl.head == WavHeader(f)))
    && (cl.base == 0 && Total(cl) != [] ==> cl.head != [])
  }

  // A call that waits is short of some bytes.
  ghost predicate GoodWait(cl: Client) {
    cl.call.Some? ==>
      var c := cl.call.value;
      GoodCall(c) && |c.buf| < c.max && c.base == cl.base && c.pos == |cl.stream|
  }

  ghost predicate GoodClient(cl: Client, id: nat, pushed: seq<Byte>, fates: seq<HttpStream.Fate>) {
    && |fates| <= |pushed|
    && Total(cl) == cl.head + Keep(pushed, fates, To(id))
    && GoodHead(cl) && GoodWait(cl)
  }

  ghost predicate QueueInv(s: State) {
    && GoodQueue(s.queue) && |s.queue| <= MAX_QUEUED
    && |s.fates| <= |s.pushed| && Pending(s.queue) == s.pushed[|s.fates|..]
  }

  ghost predicate ClientInv(s: State, id: nat) {
    if id in s.clients then GoodClient(s.clients[id], id, s.pushed, s.fates) else To(id) !in s.fates
  }

  ghost predicate Inv(s: State, id: nat) { QueueInv(s) && ClientInv(s, id) }

  // Trimming, and what it costs.
  lemma {:induction false} TrimAccounts(q: Queue)
    requires GoodQueue(q)
    ensures GoodQueue(Trimmed(q)) && TrimmedBytes(q) <= |Pending(q)|
    ensures Pending(Trimmed(q)) == Pending(q)[TrimmedBytes(q)..]
    ensures |q| <= MAX_QUEUED ==> |Trimmed(q)| <= |q|
  {
    if |q| >= MAX_QUEUED {
      TrimAccounts(q[1..]);
      Twice(Pending(q), |Left(q[0])|, TrimmedBytes(q[1..]));
      assert Pending(q)[|Left(q[0])|..] == Pending(q[1..]);
    }
  }

  lemma {:induction false} UntouchedSnoc(q: Queue, m: Message)
    requires Untouched(q) && GoodMessage(m) && m.offs == 0
    ensures Untouched(q + [m]) && Pending(q + [m]) == Pending(q) + m.data
  {
    if q == [] {
      assert Left(m) == m.data && Pending([m]) == Left(m) + Pending([]);
    } else {
      UntouchedSnoc(q[1..], m);
      assert (q + [m])[1..] == q[1..] + [m];
      assert Left(q[0]) + (Pending(q[1..]) + m.data) == Left(q[0]) + Pending(q[1..]) + m.data;
    }
  }

  lemma PendingSnoc(q: Queue, m: Message)
    requires GoodQueue(q) && GoodMessage(m) && m.offs == 0
    ensures GoodQueue(q + [m]) && Pending(q + [m]) == Pending(q) + m.data
  {
    if q == [] {
      UntouchedSnoc(q, m);
    } else {
      UntouchedSnoc(q[1..], m);
      assert (q + [m])[1..] == q[1..] + [m];
      assert Left(q[0]) + (Pending(q[1..]) + m.data) == Left(q[0]) + Pending(q[1..]) + m.data;
    }
  }

  // Fates that do not concern a client do not change what it got.
  lemma OthersKept(cl: Client, id: nat, pushed: seq<Byte>, fates: seq<HttpStream.Fate>, more: seq<HttpStream.Fate>)
    requires GoodClient(cl, id, pushed, fates) && |fates| + |more| <= |pushed| && To(id) !in more
    ensures GoodClient(cl, id, pushed, fates + more)
  {
    KeepConcat(pushed, fates, more, To(id));
    KeepNone(pushed[|fates|..], more, To(id));
    NoMore(Keep(pushed, fates, To(id)));
  }

  lemma MorePushed(cl: Client, id: nat, pushed: seq<Byte>, fates: seq<HttpStream.Fate>, data: seq<Byte>)
    requires GoodClient(cl, id, pushed, fates)
    ensures GoodClient(cl, id, pushed + data, fates)
  {
    KeepPrefix(pushed, data, fates, To(id));
  }

  lemma PushQueue(s: State, m: Message)
    requires QueueInv(s) && GoodMessage(m) && m.offs == 0
    ensures QueueInv(Apply(s, Push(m))) && |s.fates| + TrimmedBytes(s.queue) <= |s.pushed|
  {
    var q1, lost := Trimmed(s.queue), Same(TrimmedBytes(s.queue), Lost);
    TrimAccounts(s.queue);
    PendingSnoc(q1, m);
    PushRest(s.pushed, s.fates, Pending(s.queue), lost, Pending(q1), m.data);
  }

  lemma PushRest(pushed: seq<Byte>, fates: seq<HttpStream.Fate>, all: seq<Byte>, lost: seq<HttpStream.Fate>,
                 rest: seq<Byte>, data: seq<Byte>)
    requires |fates| <= |pushed| && all == pushed[|fates|..] && |lost| <= |all| && rest == all[|lost|..]
    ensures |fates + lost| <= |pushed| && (pushed + data)[|fates + lost|..] == rest + data
  {
    RestOfAll(pushed, fates, all, lost, rest);
    SliceAppend(pushed, data, |fates + lost|);
  }

  lemma PushKeeps(s: State, m: Message, id: nat)
    requires Inv(s, id) && GoodMessage(m) && m.offs == 0
    ensures Inv(Apply(s, Push(m)), id)
  {
    var lost := Same(TrimmedBytes(s.queue), Lost);
    PushQueue(s, m);
    if id in s.clients {
      OthersKept(s.clients[id], id, s.pushed, s.fates, lost);
      MorePushed(s.clients[id], id, s.pushed, s.fates + lost, m.data);
    }
  }

  lemma Totals<T>(stream: seq<T>, buf: seq<T>, head: seq<T>, kept: seq<T>, head1: seq<T>, more: seq<T>)
    requires stream + buf == head + kept && (head1 != [] ==> stream + buf == [])
    ensures stream + (buf + head1 + more) == head + head1 + (kept + more)
  {
    if head1 == [] {
      assert stream + (buf + [] + more) == (stream + buf) + more;
      assert head + [] + (kept + more) == (head + kept) + more;
    } else {
      assert stream == [] && buf == [] && head == [] && kept == [];
    }
  }

  ghost predicate Continues(cl: Client, c: Call) {
    && GoodCall(c) && c.base == cl.base && c.pos == |cl.stream|
    && (cl.call == Some(c) || (cl.call == None && c.buf == []))
  }

  // A header is added to a client that has nothing yet, and then at once.
  lemma HeadFirst(cl: Client, q: Queue, c: Call)
    requires GoodHead(cl) && Continues(cl, c)
    ensures FillHead(q, c) != [] ==> cl.base == 0 && Total(cl) == [] && FillHead(q, c) == WavHeader(q[0].format)
    ensures cl.base == 0 && Total(cl) == [] && FillHead(q, c) == [] ==> |c.buf| == c.max || q == []
  {
  }

  // The client after a stretch of a call.
  ghost function ServedClient(cl: Client, c: Call, q: Queue): Client
    requires GoodQueue(q) && GoodCall(c)
  {
    var r := Fill(q, c);
    var cl1 := cl.(head := cl.head + FillHead(q, c));
    if |r.call.buf| == c.max then cl1.(stream := cl.stream + r.call.buf, call := None)
    else cl1.(call := Some(r.call))
  }

  lemma ServedHead(cl: Client, c: Call, q: Queue)
    requires GoodHead(cl) && Continues(cl, c) && GoodQueue(q)
    requires Total(cl) == [] ==> cl.head == []
    ensures GoodHead(ServedClient(cl, c, q))
  {
    HeadFirst(cl, q, c);
    NoMore(cl.head);
    assert FillHead(q, c) != [] ==> cl.head + FillHead(q, c) == FillHead(q, c);
  }

  lemma TotalLedger(cl: Client, cl1: Client, id: nat, pushed: seq<Byte>, fates: seq<HttpStream.Fate>,
                    fs: seq<HttpStream.Fate>, rest: seq<Byte>, head1: seq<Byte>, buf: seq<Byte>, buf1: seq<Byte>)
    requires |fates| <= |pushed| && Ledger(pushed[|fates|..], fs, rest, id, buf, head1, buf1)
    requires Total(cl) == cl.head + Keep(pushed, fates, To(id)) == cl.stream + buf
    requires head1 != [] ==> Total(cl) == []
    requires Total(cl1) == cl.stream + buf1 && cl1.head == cl.head + head1
    ensures Total(cl1) == cl1.head + Keep(pushed, fates + fs, To(id))
  {
    KeepConcat(pushed, fates, fs, To(id));
    Totals(cl.stream, buf, cl.head, Keep(pushed, fates, To(id)), head1, Keep(pushed[|fates|..], fs, To(id)));
  }

  lemma ServedTotal(cl: Client, c: Call, q: Queue)
    requires GoodQueue(q) && Continues(cl, c)
    ensures Total(cl) == cl.stream + c.buf && Total(ServedClient(cl, c, q)) == cl.stream + Fill(q, c).call.buf
    ensures GoodWait(ServedClient(cl, c, q))
  {
    NoMore(cl.stream);
    NoMore(cl.stream + Fill(q, c).call.buf);
  }

  lemma ServedGood(s: State, id: nat, c: Call, q: Queue)
    requires Inv(s, id) && id in s.clients && GoodQueue(q) && Pending(q) == Pending(s.queue)
    requires Continues(s.clients[id], c)
    ensures ClientInv(Served(s, id, c, q), id)
  {
    var cl, r, fs := s.clients[id], Fill(q, c), FillFates(q, c, id);
    FillAccounts(q, c, id);
    ServedHead(cl, c, q);
    ServedTotal(cl, c, q);
    HeadFirst(cl, q, c);
    TotalLedger(cl, ServedClient(cl, c, q), id, s.pushed, s.fates, fs, Pending(r.queue), FillHead(q, c), c.buf,
                r.call.buf);
  }

  lemma ServedOther(s: State, id: nat, c: Call, q: Queue, other: nat)
    requires Inv(s, other) && id in s.clients && GoodQueue(q) && Pending(q) == Pending(s.queue)
    requires GoodCall(c) && other != id
    ensures ClientInv(Served(s, id, c, q), other)
  {
    FillAccounts(q, c, id);
    if other in s.clients {
      OthersKept(s.clients[other], other, s.pushed, s.fates, FillFates(q, c, id));
    }
  }

  lemma ServedQueue(s: State, id: nat, c: Call, q: Queue)
    requires QueueInv(s) && id in s.clients && GoodQueue(q) && Pending(q) == Pending(s.queue) && |q| <= |s.queue|
    requires GoodCall(c)
    ensures QueueInv(Served(s, id, c, q))
  {
    FillAccounts(q, c, id);
    RestOfAll(s.pushed, s.fates, Pending(s.queue), FillFates(q, c, id), Pending(Fill(q, c).queue));
  }

  lemma RestOfAll(pushed: seq<Byte>, fates: seq<HttpStream.Fate>, all: seq<Byte>, fs: seq<HttpStream.Fate>,
                  rest: seq<Byte>)
    requires |fates| <= |pushed| && all == pushed[|fates|..] && |fs| <= |all| && rest == all[|fs|..]
    ensures |fates + fs| <= |pushed| && rest == pushed[|fates + fs|..]
  {
    Twice(pushed, |fates|, |fs|);
  }

  lemma ServedKeeps(s: State, id: nat, c: Call, q: Queue, other: nat)
    requires Inv(s, id) && Inv(s, other) && id in s.clients && Continues(s.clients[id], c)
    requires GoodQueue(q) && Pending(q) == Pending(s.queue) && |q| <= |s.queue|
    ensures Inv(Served(s, id, c, q), other)
  {
    ServedQueue(s, id, c, q);
    if other == id {
      ServedGood(s, id, c, q);
    } else {
      ServedOther(s, id, c, q, other);
    }
  }

  lemma StepKeeps(s: State, step: Step, other: nat)
    requires Allowed(s, step) && Inv(s, other)
    requires step.Begin? || step.Wake? ==> Inv(s, step.id)
    ensures Safe(s, step) && Inv(Apply(s, step), other)
  {
    match step
    case Push(m) => PushKeeps(s, m, other);
    case Connect(id, base) =>
      if other == id {
        KeepNone(s.pushed, s.fates, To(id));
      }
    case Begin(id, max) =>
      var cl := s.clients[id];
      if !Ended(cl.base, |cl.stream|) {
        ServedKeeps(s, id, Call(cl.base, |cl.stream|, max, false, []), s.queue, other);
      }
    case Wake(id) =>
      WokenGood(s.queue);
      ServedKeeps(s, id, s.clients[id].call.value, Woken(s.queue), other);
  }

  // --- runs ---

  ghost predicate Run(states: seq<State>, steps: seq<Step>) {
    && |states| == |steps| + 1 && states[0] == INITIAL
    && forall i | 0 <= i < |steps| :: Next(states[i], steps[i], states[i + 1])
  }

  ghost predicate Next(s: State, step: Step, s1: State) {
    Safe(s, step) && Allowed(s, step) && s1 == Apply(s, step)
  }

  lemma {:induction false} RunGood(states: seq<State>, steps: seq<Step>, i: nat, id: nat)
    requires Run(states, steps) && i < |states|
    ensures Inv(states[i], id)
  {
    if i > 0 {
      var step := steps[i - 1];
      RunGood(states, steps, i - 1, id);
      if step.Begin? || step.Wake? {
        RunGood(states, steps, i - 1, step.id);
      }
      assert Next(states[i - 1], step, states[i]);
      StepKeeps(states[i - 1], step, id);
    }
  }

  // No run gets stuck: a step that is allowed is defined.
  lemma NeverStuck(states: seq<State>, steps: seq<Step>, step: Step)
    requires Run(states, steps) && Allowed(states[|steps|], step)
    ensures Safe(states[|steps|], step)
  {
    var id := if step.Begin? || step.Wake? then step.id else 0;
    RunGood(states, steps, |steps|, id);
    StepKeeps(states[|steps|], step, id);
  }

  // What a client got is the header, once and first if it reads from the start, and then audio bytes
  // in their order, each given to no one else; what is still queued is what nobody got or lost.
  lemma StreamConserved(states: seq<State>, steps: seq<Step>, i: nat, id: nat)
    requires Run(states, steps) && i < |states| && id in states[i].clients
    ensures var s, cl := states[i], states[i].clients[id];
            && |s.queue| <= MAX_QUEUED && |s.fates| <= |s.pushed|
            && Total(cl) == cl.head + Keep(s.pushed, s.fates, To(id))
            && s.pushed[|s.fates|..] == Pending(s.queue)
            && (cl.base != 0 ==> cl.head == [])
            && (cl.base == 0 && Total(cl) != [] ==> exists f: Format :: cl.head == WavHeader(f))
  {
    RunGood(states, steps, i, id);
  }

  // A call returns as many bytes as were asked for, and waits only for an empty queue to fill.
  lemma FullOrEmpty(s: State, id: nat, c: Call, q: Queue)
    requires id in s.clients && GoodQueue(q) && Continues(s.clients[id], c)
    ensures var s1 := Served(s, id, c, q);
            if s1.clients[id].call == None then |s1.clients[id].stream| == |s.clients[id].stream| + c.max
            else s1.clients[id].stream == s.clients[id].stream && s1.queue == []
  {
  }

  // --- what is lost ---

  // A call that does not start right after the header skips nothing.
  lemma {:induction false} FillLossless(q: Queue, c: Call, id: nat)
    requires GoodQueue(q) && GoodCall(c) && (c.base + c.pos != HEADER_SIZE || c.fixed)
    ensures forall i | 0 <= i < |FillFates(q, c, id)| :: FillFates(q, c, id)[i] == To(id)
    decreases |q|, c.max - |c.buf|
  {
    if |c.buf| < c.max && q != [] {
      EmitAccounts(q, c, id);
      EmitRound(q, c, Emitted(q[0], c));
      FillLossless(Round(q, c).queue, Round(q, c).call, id);
    }
  }

  // One that does, on a queue whose front was already partly emitted, gets whole messages from the
  // start of the second one on.
  lemma RestartsAtMessage(q: Queue, c: Call, id: nat)
    requires GoodQueue(q) && GoodCall(c) && c.base + c.pos == HEADER_SIZE && !c.fixed && c.buf == []
    requires q != [] && q[0].offs != 0 && c.max > 0
    ensures var buf := Fill(q, c).call.buf;
            && Untouched(q[1..])
            && |buf| <= |Pending(q[1..])| && buf == Pending(q[1..])[..|buf|]
  {
    var d := c.(fixed := true);
    SkipRound(q, c);
    NoMore(c.buf);
    assert Round(q, c) == Outcome(q[1..], d);
    FillAccounts(q[1..], d, id);
    FillLossless(q[1..], d, id);
    KeepAll(Pending(q[1..]), FillFates(q[1..], d, id), To(id));
  }

  // The steps that lose bytes: a message pushed on a full queue whose front is not all emitted, and
  // the first round of a call right after the header, on a front that was partly emitted.
  ghost predicate Loses(s: State, step: Step) {
    match step
    case Push(_) => |s.queue| >= MAX_QUEUED && Left(s.queue[0]) != []
    case Connect(_, _) => false
    case Begin(id, max) =>
      && id in s.clients && !Ended(s.clients[id].base, |s.clients[id].stream|)
      && StartsLosing(s.queue, Call(s.clients[id].base, |s.clients[id].stream|, max, false, []))
    case Wake(id) =>
      id in s.clients && s.clients[id].call.Some? && StartsLosing(Woken(s.queue), s.clients[id].call.value)
  }

  ghost predicate StartsLosing(q: Queue, c: Call) { |c.buf| < c.max && q != [] && Skips(q[0], c) }

  // A message that was emitted to its end is not kept.
  ghost predicate Tight(q: Queue) { q != [] && q[0].offs != 0 ==> q[0].offs < |q[0].data| }

  lemma AfterRound(q: Queue, c: Call)
    requires q != [] && GoodQueue(q) && GoodCall(c) && |c.buf| < c.max
    ensures var r := Round(q, c); Tight(r.queue) && (r.queue == q[1..] || |r.call.buf| == c.max)
  {
    if Skips(q[0], c) { SkipRound(q, c); } else { EmitRound(q, c, Emitted(q[0], c)); }
  }

  // Only the first round of a call can lose anything.
  lemma {:induction false} FillLostIff(q: Queue, c: Call, id: nat)
    requires GoodQueue(q) && GoodCall(c) && Tight(q)
    ensures Lost in FillFates(q, c, id) <==> StartsLosing(q, c)
    ensures Tight(Fill(q, c).queue)
    decreases |q|, c.max - |c.buf|
  {
    if |c.buf| < c.max && q != [] {
      var r, fs := Round(q, c), RoundFates(q, c, id);
      RoundStays(q, c);
      AfterRound(q, c);
      FillLostIff(r.queue, r.call, id);
      if Skips(q[0], c) {
        assert fs[0] == Lost;
        assert (fs + FillFates(r.queue, r.call, id))[0] == Lost;
      }
    }
  }

  lemma PushLostIff(s: State, m: Message)
    requires QueueInv(s) && Tight(s.queue) && m.offs == 0
    ensures TrimmedBytes(s.queue) > 0 <==> Loses(s, Push(m))
    ensures Tight(Pushed(s.queue, m))
  {
    var q := s.queue;
    if |q| >= MAX_QUEUED {
      var rest := q[1..];
      assert Trimmed(q) == Trimmed(rest) == rest && rest[0].offs == 0;
      assert (rest + [m])[0] == rest[0];
    } else if q != [] {
      assert (q + [m])[0] == q[0];
    }
  }

  lemma StepLostIff(s: State, step: Step)
    requires QueueInv(s) && Safe(s, step) && Allowed(s, step) && Tight(s.queue)
    ensures Lost in Apply(s, step).fates <==> Lost in s.fates || Loses(s, step)
    ensures Tight(Apply(s, step).queue)
  {
    match step
    case Push(m) =>
      PushLostIff(s, m);
      var more := Same(TrimmedBytes(s.queue), Lost);
      assert Lost in more <==> |more| > 0 by {
        if |more| > 0 { assert more[0] == Lost; }
      }
    case Connect(_, _) =>
    case Begin(id, max) =>
      var cl := s.clients[id];
      if !Ended(cl.base, |cl.stream|) {
        FillLostIff(s.queue, Call(cl.base, |cl.stream|, max, false, []), id);
      }
    case Wake(id) =>
      WokenGood(s.queue);
      FillLostIff(Woken(s.queue), s.clients[id].call.value, id);
  }

  // Something is lost in a run, with any number of clients, if and only if some step loses it.
  // One of the first i steps loses a byte.
  ghost predicate LosesBefore(states: seq<State>, steps: seq<Step>, i: nat)
    requires i <= |steps| < |states|
  {
    exists j :: 0 <= j < i && Loses(states[j], steps[j])
  }

  lemma LosesOneMore(states: seq<State>, steps: seq<Step>, i: nat)
    requires 0 < i <= |steps| < |states|
    ensures LosesBefore(states, steps, i)
            <==> LosesBefore(states, steps, i - 1) || Loses(states[i - 1], steps[i - 1])
  {
  }

  lemma {:induction false} LostIff(states: seq<State>, steps: seq<Step>, i: nat)
    requires Run(states, steps) && i < |states|
    ensures Tight(states[i].queue)
    ensures Lost in states[i].fates <==> LosesBefore(states, steps, i)
  {
    if i > 0 {
      LostIff(states, steps, i - 1);
      RunGood(states, steps, i - 1, 0);
      var s, step := states[i - 1], steps[i - 1];
      assert Next(s, step, states[i]);
      StepLostIff(s, step);
      LosesOneMore(states, steps, i);
    }
  }

  // Only client id is connected.
  ghost predicate Sole(s: State, id: nat) { id in s.clients && forall other | other in s.clients :: other == id }

  lemma {:induction false} KeepShorter<T, F>(xs: seq<T>, fates: seq<F>, f: F)
    requires |fates| <= |xs|
    ensures |Keep(xs, fates, f)| <= |fates|
    ensures |Keep(xs, fates, f)| == |fates| <==> forall i | 0 <= i < |fates| :: fates[i] == f
    decreases |fates|
  {
    if fates != [] {
      var n := |fates| - 1;
      KeepShorter(xs, fates[..n], f);
    }
  }

  // A sole client got every byte that left the queue if and only if no step lost any.
  lemma CompleteIff(states: seq<State>, steps: seq<Step>, i: nat, id: nat)
    requires Run(states, steps) && i < |states| && Sole(states[i], id)
    ensures var s, cl := states[i], states[i].clients[id];
            && |s.fates| <= |s.pushed|
            && (Total(cl) == cl.head + s.pushed[..|s.fates|]
                <==> forall j | 0 <= j < i :: !Loses(states[j], steps[j]))
  {
    var s := states[i];
    var cl := s.clients[id];
    RunGood(states, steps, i, id);
    LostIff(states, steps, i);
    forall k | 0 <= k < |s.fates| && s.fates[k] != Lost ensures s.fates[k] == To(id) {
      var other := s.fates[k].client;
      RunGood(states, steps, i, other);
      assert s.fates[k] in s.fates;
    }
    KeepShorter(s.pushed, s.fates, To(id));
    if Lost !in s.fates {
      forall k | 0 <= k < |s.fates| ensures s.fates[k] == To(id) {
        assert s.fates[k] in s.fates;
      }
      KeepAll(s.pushed, s.fates, To(id));
    } else {
      var k :| 0 <= k < |s.fates| && s.fates[k] == Lost;
      assert |Total(cl)| < |cl.head + s.pushed[..|s.fates|]|;
    }
  }
}
