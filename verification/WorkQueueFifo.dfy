// The work queue hands items over in order and loses none.
module WorkQueueFifo {
  import opened History
  import opened CondVar
  import opened WorkQueueSpec

  // What was accepted is what left, in order, followed by what is queued; take returned
  // exactly the items that were not flushed.
  ghost predicate Fifo<T>(s: State<T>) {
    && |s.fates| <= |s.accepted|
    && s.accepted[|s.fates|..] == s.queue
    && s.taken == Keep(s.accepted, s.fates, Delivered)
    && s.tottasks == s.takes % UINT_MOD
    && (s.high > 0 ==> |s.queue| <= s.high)
    && (s.low >= 1 ==> !s.faulted)
  }

  lemma FlushFifo<T>(s: State<T>)
    requires Fifo(s)
    ensures Fifo(Flush(s))
  {
    KeepExtend(s.accepted, s.fates, |s.queue|, Dropped, Delivered);
  }

  lemma PushFifo<T>(s: State<T>, item: T)
    requires Fifo(s) && (s.high > 0 ==> |s.queue| < s.high)
    ensures Fifo(Push(s, item))
  {
    KeepPrefix(s.accepted, [item], s.fates, Delivered);
  }

  lemma PutFifo<T>(s: State<T>, t: Tid, item: T, flush: bool, pick: Tid)
    requires Fifo(s)
    ensures Fifo(PutLoop(s, t, item, flush, pick).state)
  {
    if !(s.high > 0 && |s.queue| >= s.high) {
      FlushFifo(s);
      PushFifo(if flush then Flush(s) else s, item);
    }
  }

  lemma TakeFifo<T>(s: State<T>, t: Tid, pick: Tid)
    requires Fifo(s)
    ensures Fifo(TakeLoop(s, t, pick).state)
  {
    if s.queue != [] && |s.queue| >= s.low { PopFifo(s); }
  }

  lemma PopFifo<T>(s: State<T>)
    requires Fifo(s) && s.queue != []
    ensures Fifo(Pop(s))
  {
    var n := |s.fates|;
    assert s.accepted[n] == s.queue[0];
    assert (s.fates + [Delivered])[..n] == s.fates;
    assert s.accepted[n + 1..] == s.queue[1..];
    assert Pop(s).taken == Keep(s.accepted, s.fates + [Delivered], Delivered);
  }

  lemma ClientFifo<T>(s: State<T>, t: Tid, pick: Tid)
    requires Fifo(s) && t in s.c.waits
    ensures Fifo(ClientWoken(s, t, pick).state)
  {
    var s1 := s.(c := Leave(s.c, t));
    assert Fifo(s1);
    match s.c.waits[t] {
      case PutWait(item, flush) => PutFifo(s1, t, item, flush, pick);
      case IdleWait =>
      case TermWait =>
    }
  }

  lemma WorkerFifo<T>(s: State<T>, t: Tid, pick: Tid)
    requires Fifo(s) && t in s.w.waits
    ensures Fifo(WorkerWoken(s, t, pick).state)
  {
    var s1 := s.(w := Leave(s.w, t));
    assert Fifo(s1);
    match s.w.waits[t] {
      case TakeWait => TakeFifo(s1, t, pick);
      case MinWait(_) =>
    }
  }

  lemma StepFifo<T>(s: State<T>, step: Step<T>)
    requires Fifo(s) && Enabled(s, step)
    ensures Fifo(Apply(s, step).state)
  {
    match step {
      case Put(t, item, flush, pick) => PutFifo(s, t, item, flush, pick);
      case Take(t, pick) => TakeFifo(s, t, pick);
      case ResumeClient(t, pick) => ClientFifo(s, t, pick);
      case ResumeWorker(t, pick) => WorkerFifo(s, t, pick);
      case _ => OtherFifo(s, step);
    }
  }

  lemma FifoFrame<T>(s: State<T>, s1: State<T>)
    requires Fifo(s) && s1.accepted == s.accepted && s1.queue == s.queue && s1.taken == s.taken
    requires s1.fates == s.fates && s1.high == s.high && s1.low == s.low && s1.faulted == s.faulted
    requires s1.tottasks == s1.takes % UINT_MOD
    ensures Fifo(s1)
  {
  }

  lemma OtherFifo<T>(s: State<T>, step: Step<T>)
    requires Fifo(s) && Enabled(s, step)
    requires !step.Put? && !step.Take? && !step.ResumeClient? && !step.ResumeWorker?
    ensures Fifo(Apply(s, step).state)
  {
    FifoFrame(s, Apply(s, step).state);
  }
}
