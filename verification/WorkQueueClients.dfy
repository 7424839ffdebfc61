// No lost wakeup for the clients of the work queue: producers blocked on a full queue and
// callers of waitIdle.
module WorkQueueClients {
  import opened CondVar
  import opened WorkQueueSpec
  import opened WorkQueueInvariants

  // --- what clients wait for ---

  // Which calls the waiting clients can be in.
  ghost predicate ClientKinds<T>(p: Policy, s: State<T>) {
    forall t | t in s.c.waits :: Kind(p, s.high, s.c.waits[t])
  }

  ghost predicate Kind<T>(p: Policy, high: nat, wait: ClientWait<T>) {
    match wait
    case PutWait(_, flush) => high > 0 && (flush ==> p.flush)
    case IdleWait => p.idle
    case TermWait => true
  }

  lemma KindsFrame<T>(p: Policy, s: State<T>, s1: State<T>)
    requires ClientKinds(p, s) && s1.high == s.high
    requires forall t | t in s1.c.waits :: t in s.c.waits && s1.c.waits[t] == s.c.waits[t]
    ensures ClientKinds(p, s1)
  {
  }

  lemma PutKinds<T>(p: Policy, s: State<T>, t: Tid, item: T, flush: bool, pick: Tid)
    requires ClientKinds(p, s) && (flush ==> p.flush)
    ensures ClientKinds(p, PutLoop(s, t, item, flush, pick).state)
  {
    if !(s.high > 0 && |s.queue| >= s.high) {
      KindsFrame(p, s, PutLoop(s, t, item, flush, pick).state);
    }
  }

  lemma WokenKinds<T>(p: Policy, s: State<T>, t: Tid, pick: Tid)
    requires ClientKinds(p, s) && t in s.c.waits
    ensures ClientKinds(p, ClientWoken(s, t, pick).state)
  {
    var s1 := s.(c := Leave(s.c, t));
    assert Kind(p, s.high, s.c.waits[t]);
    KindsFrame(p, s, s1);
    match s.c.waits[t] {
      case PutWait(item, flush) =>
        PutAgain(s, t, pick);
        if Live(s1) { PutKinds(p, s1, t, item, flush, pick); }
      case IdleWait => IdleAgain(s, t, pick);
      case TermWait => TermAgain(s, t, pick);
    }
  }

  // Workers do not change what clients wait for.
  lemma WorkerWokenKinds<T>(s: State<T>, t: Tid, pick: Tid)
    requires t in s.w.waits
    ensures var s1 := WorkerWoken(s, t, pick).state; s1.high == s.high && s1.c.waits == s.c.waits
  {
    if s.w.waits[t].TakeWait? { TakeAgain(s, t, pick); } else { MinAgain(s, t, pick); }
  }

  lemma StepKinds<T>(p: Policy, s: State<T>, step: Step<T>)
    requires ClientKinds(p, s) && Allowed(p, s, step)
    ensures ClientKinds(p, Apply(s, step).state)
  {
    match step {
      case Put(t, item, flush, pick) => PutKinds(p, s, t, item, flush, pick);
      case ResumeClient(t, pick) => WokenKinds(p, s, t, pick);
      case ResumeWorker(t, pick) => WorkerWokenKinds(s, t, pick);
      case _ => OtherKinds(p, s, step);
    }
  }

  lemma OtherKinds<T>(p: Policy, s: State<T>, step: Step<T>)
    requires ClientKinds(p, s) && Allowed(p, s, step)
    requires !step.Put? && !step.ResumeClient? && !step.ResumeWorker?
    ensures ClientKinds(p, Apply(s, step).state)
  {
  }

  // --- producers ---

  // A producer sleeps only while the woken ones (late counts one that has just got the
  // mutex) are enough to fill the queue.
  ghost predicate ProducersServed<T>(s: State<T>, late: nat) {
    Live(s) && s.high > 0 && s.c.sleep != {} ==> |s.queue| + |s.c.woken| + late >= s.high
  }

  // Nobody but producers waits, and a put does not make the queue shorter.
  predicate Filling(p: Policy, high: nat) { !p.idle && (p.flush ==> high <= 1) }

  lemma PutServes<T>(s: State<T>, t: Tid, item: T, flush: bool, pick: Tid)
    requires ProducersServed(s, 1) && (flush ==> s.high <= 1)
    ensures ProducersServed(PutLoop(s, t, item, flush, pick).state, 0)
  {
    var s1 := PutLoop(s, t, item, flush, pick).state;
    if !(s.high > 0 && |s.queue| >= s.high) {
      PutGoes(s, t, item, flush, pick);
      assert |s1.queue| == if flush then 1 else |s.queue| + 1;
    }
  }

  lemma SignalMore<T>(c: Cond<ClientWait<T>>, pick: Tid)
    requires Exact(c) && PickOk(c, pick) && c.sleep != {}
    ensures c.count > 0 && |Signal(c, pick).woken| == |c.woken| + 1
  {
    assert pick in c.waits.Keys;
  }

  lemma SleepServes<T>(s: State<T>, t: Tid, wait: WorkerWait)
    requires ProducersServed(s, 0)
    ensures ProducersServed(SleepW(s, t, wait), 0)
  {
  }

  lemma TakeServes<T>(s: State<T>, t: Tid, pick: Tid)
    requires Exact(s.c) && ProducersServed(s, 0) && PickOk(s.c, pick)
    ensures ProducersServed(TakeLoop(s, t, pick).state, 0)
  {
    if |s.queue| < s.low {
      SleepServes(s, t, TakeWait);
    } else if s.c.sleep != {} {
      SignalMore(s.c, pick);
    }
  }

  lemma PutWokenServes<T>(p: Policy, s: State<T>, t: Tid, pick: Tid)
    requires ClientInv(s) && ClientKinds(p, s) && Filling(p, s.high) && ProducersServed(s, 0)
    requires t in s.c.woken && s.c.waits[t].PutWait?
    ensures ProducersServed(ClientWoken(s, t, pick).state, 0)
  {
    PutAgain(s, t, pick);
    var s1 := s.(c := Leave(s.c, t));
    assert |s.c.woken| == |s1.c.woken| + 1;
    assert Kind(p, s.high, s.c.waits[t]);
    if Live(s1) { PutServes(s1, t, s.c.waits[t].item, s.c.waits[t].flush, pick); }
  }

  lemma ClientWokenServes<T>(p: Policy, s: State<T>, t: Tid, pick: Tid)
    requires ClientInv(s) && ClientKinds(p, s) && Filling(p, s.high) && ProducersServed(s, 0)
    requires t in s.c.woken
    ensures ProducersServed(ClientWoken(s, t, pick).state, 0)
  {
    assert Kind(p, s.high, s.c.waits[t]);
    if s.c.waits[t].PutWait? {
      PutWokenServes(p, s, t, pick);
    } else {
      TermAgain(s, t, pick);
      assert !Live(ClientWoken(s, t, pick).state);
    }
  }

  lemma WorkerWokenServes<T>(s: State<T>, t: Tid, pick: Tid)
    requires Exact(s.c) && ProducersServed(s, 0) && PickOk(s.c, pick) && t in s.w.waits
    ensures ProducersServed(WorkerWoken(s, t, pick).state, 0)
  {
    var s1 := s.(w := Leave(s.w, t));
    match s.w.waits[t] {
      case TakeWait =>
        TakeAgain(s, t, pick);
        if Live(s1) { TakeServes(s1, t, pick); }
      case MinWait(sz) =>
        MinAgain(s, t, pick);
        if Live(s1) && |s1.queue| < sz { SleepServes(s1, t, MinWait(sz)); }
    }
  }

  lemma WakeServes<T>(s: State<T>, t: Tid)
    requires ProducersServed(s, 0) && Exact(s.c) && t in s.c.sleep + s.w.sleep
    ensures ProducersServed(Wake(s, t), 0)
  {
    if t in s.c.sleep { SignalMore(s.c, t); }
  }

  // Served producers stay served.
  lemma StepServes<T>(p: Policy, s: State<T>, step: Step<T>)
    requires ClientInv(s) && ClientKinds(p, s) && Filling(p, s.high) && ProducersServed(s, 0) && Allowed(p, s, step)
    ensures ProducersServed(Apply(s, step).state, 0)
  {
    match step {
      case Put(t, item, flush, pick) =>
        if Live(s) { PutServes(s, t, item, flush, pick); }
      case Take(t, pick) =>
        if Live(s) { TakeServes(s, t, pick); }
      case ResumeWorker(t, pick) => WorkerWokenServes(s, t, pick);
      case ResumeClient(t, pick) => ClientWokenServes(p, s, t, pick);
      case Spurious(t) => WakeServes(s, t);
      case _ => OtherServes(p, s, step);
    }
  }

  // The steps that neither queue nor take.
  lemma OtherServes<T>(p: Policy, s: State<T>, step: Step<T>)
    requires ClientInv(s) && !p.idle && ProducersServed(s, 0) && Allowed(p, s, step)
    requires step.Start? || step.WaitIdle? || step.WaitMinSz? || step.WorkerExit? || step.Terminate?
    ensures ProducersServed(Apply(s, step).state, 0)
  {
    if step.Terminate? { assert !Live(Apply(s, step).state); }
  }

  // --- producers on a queue that workers never take from ---

  ghost predicate SomePut<T>(c: Cond<ClientWait<T>>) { exists t :: t in c.waits && c.waits[t].PutWait? }

  // A producer waits only on a full queue, as is the case when workers never take.
  ghost predicate Jammed<T>(s: State<T>) {
    SomePut(s.c) ==> |s.queue| >= s.high
  }

  lemma JamsFrame<T>(s: State<T>, s1: State<T>)
    requires Jammed(s) && s1.high == s.high && s1.queue == s.queue
    requires forall t | t in s1.c.waits && s1.c.waits[t].PutWait? :: t in s.c.waits && s.c.waits[t].PutWait?
    ensures Jammed(s1)
  {
    if SomePut(s1.c) {
      var u :| u in s1.c.waits && s1.c.waits[u].PutWait?;
      assert u in s.c.waits;
    }
  }

  lemma PutJams<T>(s: State<T>, t: Tid, item: T, flush: bool, pick: Tid)
    requires Jammed(s)
    ensures Jammed(PutLoop(s, t, item, flush, pick).state)
  {
    if !(s.high > 0 && |s.queue| >= s.high) {
      PutGoes(s, t, item, flush, pick);
    }
  }

  lemma ClientWokenJams<T>(s: State<T>, t: Tid, pick: Tid)
    requires Jammed(s) && t in s.c.waits
    ensures Jammed(ClientWoken(s, t, pick).state)
  {
    var s1 := s.(c := Leave(s.c, t));
    JamsFrame(s, s1);
    match s.c.waits[t] {
      case PutWait(item, flush) =>
        PutAgain(s, t, pick);
        if Live(s1) { PutJams(s1, t, item, flush, pick); }
      case IdleWait =>
        IdleAgain(s, t, pick);
        JamsFrame(s1, IdleLoop(s1, t).state);
      case TermWait =>
        TermAgain(s, t, pick);
        JamsFrame(s1, TermLoop(s1, t).state);
    }
  }

  lemma TakeJams<T>(s: State<T>, t: Tid, pick: Tid)
    requires Jammed(s) && |s.queue| < s.low
    ensures Jammed(TakeLoop(s, t, pick).state)
  {
    JamsFrame(s, TakeLoop(s, t, pick).state);
  }

  lemma WorkerWokenJams<T>(s: State<T>, t: Tid, pick: Tid)
    requires Jammed(s) && |s.queue| < s.low && t in s.w.waits
    ensures Jammed(WorkerWoken(s, t, pick).state)
  {
    var s1 := s.(w := Leave(s.w, t));
    if s.w.waits[t].TakeWait? {
      TakeAgain(s, t, pick);
      if Live(s1) { TakeJams(s1, t, pick); }
    } else {
      MinAgain(s, t, pick);
      JamsFrame(s, WorkerWoken(s, t, pick).state);
    }
  }

  lemma StepJams<T>(s: State<T>, step: Step<T>)
    requires Jammed(s) && |s.queue| < s.low && Enabled(s, step)
    ensures Jammed(Apply(s, step).state)
  {
    match step {
      case Put(t, item, flush, pick) =>
        if Live(s) { PutJams(s, t, item, flush, pick); }
      case Take(t, pick) =>
        if Live(s) { TakeJams(s, t, pick); }
      case ResumeClient(t, pick) => ClientWokenJams(s, t, pick);
      case ResumeWorker(t, pick) => WorkerWokenJams(s, t, pick);
      case _ => OtherJams(s, step);
    }
  }

  lemma OtherJams<T>(s: State<T>, step: Step<T>)
    requires Jammed(s) && Enabled(s, step)
    requires !step.Put? && !step.Take? && !step.ResumeClient? && !step.ResumeWorker?
    ensures Jammed(Apply(s, step).state)
  {
    JamsFrame(s, Apply(s, step).state);
  }

  // --- the idle barrier ---

  // What waitIdle waits for.
  ghost predicate Idle<T>(s: State<T>) {
    s.queue == [] && |s.w.waits.Keys| == |s.threads|
  }

  // Nobody sleeps through an idle queue.
  ghost predicate Barrier<T>(s: State<T>) {
    Live(s) && Idle(s) ==> s.c.sleep == {}
  }

  // A worker outside the condition variable keeps the queue busy.
  lemma Busy<T>(s: State<T>, t: Tid)
    requires WorkerInv(s) && t in s.threads && t !in s.w.waits
    ensures |s.w.waits.Keys| < |s.threads|
  {
    assert |s.threads - s.w.waits.Keys| == |s.threads| - |s.w.waits.Keys|;
    assert t in s.threads - s.w.waits.Keys;
  }

  lemma PutBarrier<T>(s: State<T>, t: Tid, item: T, flush: bool, pick: Tid)
    ensures Barrier(PutLoop(s, t, item, flush, pick).state)
  {
    assert PutLoop(s, t, item, flush, pick).state.queue != [];
  }

  lemma IdleBarrier<T>(s: State<T>, t: Tid)
    requires WorkerInv(s) && Barrier(s)
    ensures Barrier(IdleLoop(s, t).state)
  {
  }

  lemma SleepBarrier<T>(s: State<T>, t: Tid, wait: WorkerWait)
    ensures Barrier(SleepW(s, t, wait))
  {
  }

  lemma TakeBarrier<T>(s: State<T>, t: Tid, pick: Tid)
    requires WorkerInv(s) && FreeWorker(s, t)
    ensures Barrier(TakeLoop(s, t, pick).state)
  {
    if |s.queue| < s.low {
      SleepBarrier(s, t, TakeWait);
    } else {
      Busy(s, t);
      TakeFrame(s, t, pick);
    }
  }

  lemma MinBarrier<T>(s: State<T>, t: Tid, sz: nat)
    requires WorkerInv(s) && FreeWorker(s, t)
    ensures Barrier(MinLoop(s, t, sz).state)
  {
    if |s.queue| < sz {
      SleepBarrier(s, t, MinWait(sz));
    } else {
      Busy(s, t);
    }
  }

  lemma ClientWokenBarrier<T>(s: State<T>, t: Tid, pick: Tid)
    requires WorkerInv(s) && Barrier(s) && t in s.c.waits && (s.c.waits[t].TermWait? ==> !s.mOk)
    ensures Barrier(ClientWoken(s, t, pick).state)
  {
    var s1 := s.(c := Leave(s.c, t));
    match s.c.waits[t] {
      case PutWait(item, flush) =>
        PutAgain(s, t, pick);
        if Live(s1) { PutBarrier(s1, t, item, flush, pick); }
      case IdleWait =>
        IdleAgain(s, t, pick);
        IdleBarrier(s1, t);
      case TermWait =>
        TermAgain(s, t, pick);
        assert !Live(ClientWoken(s, t, pick).state);
    }
  }

  lemma WorkerWokenBarrier<T>(s: State<T>, t: Tid, pick: Tid)
    requires WorkerInv(s) && t in s.w.woken && t in s.w.waits
    ensures Barrier(WorkerWoken(s, t, pick).state)
  {
    var s1 := s.(w := Leave(s.w, t));
    LeaveWorkers(s, t);
    match s.w.waits[t] {
      case TakeWait =>
        TakeAgain(s, t, pick);
        if Live(s1) { TakeBarrier(s1, t, pick); }
      case MinWait(sz) =>
        MinAgain(s, t, pick);
        if Live(s1) { MinBarrier(s1, t, sz); }
    }
  }

  lemma StartBarrier<T>(s: State<T>, ws: set<Tid>)
    requires Inv(s) && Barrier(s) && ws !! s.threads
    ensures Barrier(s.(threads := s.threads + ws))
  {
    var s1 := s.(threads := s.threads + ws);
    if ws == {} {
      assert s1.threads == s.threads;
    } else {
      var t :| t in ws;
      assert t !in s.w.waits.Keys && s.w.waits.Keys <= s1.threads - {t};
      assert |s1.threads - {t}| < |s1.threads|;
      Fewer(s.w.waits.Keys, s1.threads - {t});
    }
  }

  lemma Fewer(a: set<Tid>, b: set<Tid>)
    requires a <= b
    ensures |a| <= |b|
  {
    assert |b - a| == |b| - |a|;
  }

  // The barrier holds through every step, with any mix of put, take, waitminsz and
  // waitIdle.
  lemma StepBarrier<T>(s: State<T>, step: Step<T>)
    requires Inv(s) && Barrier(s) && Enabled(s, step)
    ensures Barrier(Apply(s, step).state)
  {
    match step {
      case Put(t, item, flush, pick) =>
        if Live(s) { PutBarrier(s, t, item, flush, pick); }
      case WaitIdle(t) =>
        if Live(s) { IdleBarrier(s, t); }
      case Take(t, pick) =>
        if Live(s) { TakeBarrier(s, t, pick); }
      case WaitMinSz(t, sz) =>
        if Live(s) { MinBarrier(s, t, sz); }
      case ResumeClient(t, pick) => ClientWokenBarrier(s, t, pick);
      case ResumeWorker(t, pick) => WorkerWokenBarrier(s, t, pick);
      case Start(ws) => StartBarrier(s, ws);
      case Terminate(t) =>
        if s.threads != {} { assert !Live(Apply(s, step).state); }
      case WorkerExit(t, _) => assert !Live(Apply(s, step).state);
      case Spurious(t) => WakeBarrier(s, t);
    }
  }

  lemma WakeBarrier<T>(s: State<T>, t: Tid)
    requires Barrier(s) && t in s.c.sleep + s.w.sleep
    ensures Barrier(Wake(s, t))
  {
  }

  // --- when all workers are asleep ---

  // No client sleeps then, if the queue is empty. Unlike the barrier this needs no client counter.
  ghost predicate Quiet<T>(s: State<T>) {
    s.threads != {} && s.w.sleep == s.threads && s.queue == [] ==> s.c.sleep == {}
  }

  lemma AwakeQuiet<T>(s: State<T>, t: Tid)
    requires t in s.threads && t !in s.w.sleep
    ensures Quiet(s)
  {
  }

  lemma IdleQuiet<T>(s: State<T>, t: Tid)
    requires WorkerInv(s) && Quiet(s)
    ensures Quiet(IdleLoop(s, t).state)
  {
    if s.w.sleep == s.threads { assert s.w.waits.Keys == s.threads; }
  }

  lemma TermQuiet<T>(s: State<T>, t: Tid)
    requires s.threads != {}
    ensures Quiet(TermLoop(s, t).state)
  {
  }

  lemma ClientWokenQuiet<T>(s: State<T>, t: Tid, pick: Tid)
    requires WorkerInv(s) && Quiet(s) && t in s.c.waits
    ensures Quiet(ClientWoken(s, t, pick).state)
  {
    var s1 := s.(c := Leave(s.c, t));
    match s.c.waits[t] {
      case PutWait(item, flush) =>
        PutAgain(s, t, pick);
        if Live(s1) { PutQuiet(s1, t, item, flush, pick); }
      case IdleWait =>
        IdleAgain(s, t, pick);
        IdleQuiet(s1, t);
      case TermWait =>
        TermAgain(s, t, pick);
        if s.threads != {} { TermQuiet(s1, t); }
    }
  }

  lemma PutQuiet<T>(s: State<T>, t: Tid, item: T, flush: bool, pick: Tid)
    ensures Quiet(PutLoop(s, t, item, flush, pick).state)
  {
    assert PutLoop(s, t, item, flush, pick).state.queue != [];
  }

  lemma TakeQuiet<T>(s: State<T>, t: Tid, pick: Tid)
    requires FreeWorker(s, t) && t !in s.w.sleep
    ensures Quiet(TakeLoop(s, t, pick).state)
  {
    if |s.queue| >= s.low {
      TakeFrame(s, t, pick);
      AwakeQuiet(TakeLoop(s, t, pick).state, t);
    }
  }

  lemma WorkerWokenQuiet<T>(s: State<T>, t: Tid, pick: Tid)
    requires WorkerInv(s) && t in s.w.woken && t in s.w.waits
    ensures Quiet(WorkerWoken(s, t, pick).state)
  {
    var s1 := s.(w := Leave(s.w, t));
    LeaveWorkers(s, t);
    match s.w.waits[t] {
      case TakeWait =>
        TakeAgain(s, t, pick);
        if Live(s1) { TakeQuiet(s1, t, pick); }
      case MinWait(sz) =>
        MinAgain(s, t, pick);
        if Live(s1) && |s.queue| >= sz { AwakeQuiet(s1, t); }
    }
  }

  lemma StartQuiet<T>(s: State<T>, ws: set<Tid>)
    requires WorkerInv(s) && Quiet(s) && ws !! s.threads
    ensures Quiet(s.(threads := s.threads + ws))
  {
    if t :| t in ws {
      assert t !in s.w.waits.Keys;
      AwakeQuiet(s.(threads := s.threads + ws), t);
    } else {
      assert s.threads + ws == s.threads;
    }
  }

  lemma StepQuiet<T>(s: State<T>, step: Step<T>)
    requires WorkerInv(s) && Quiet(s) && Enabled(s, step)
    ensures Quiet(Apply(s, step).state)
  {
    match step {
      case Start(ws) => StartQuiet(s, ws);
      case Put(t, item, flush, pick) =>
        if Live(s) { PutQuiet(s, t, item, flush, pick); }
      case WaitIdle(t) =>
        if Live(s) { IdleQuiet(s, t); }
      case Terminate(t) =>
        if s.threads != {} { TermQuiet(s.(mOk := false), t); }
      case Take(t, pick) => AwakeTake(s, t, pick);
      case WaitMinSz(t, sz) => AwakeMin(s, t, sz);
      case WorkerExit(t, _) =>
      case ResumeClient(t, pick) => ClientWokenQuiet(s, t, pick);
      case ResumeWorker(t, pick) => WorkerWokenQuiet(s, t, pick);
      case Spurious(t) => WakeQuiet(s, t);
    }
  }

  lemma AwakeTake<T>(s: State<T>, t: Tid, pick: Tid)
    requires WorkerInv(s) && Enabled(s, Take(t, pick))
    ensures Quiet(Apply(s, Take(t, pick)).state)
  {
    assert t !in s.w.waits.Keys;
    if Live(s) { TakeQuiet(s, t, pick); } else { AwakeQuiet(Refuse(s, t).state, t); }
  }

  lemma AwakeMin<T>(s: State<T>, t: Tid, sz: nat)
    requires WorkerInv(s) && Enabled(s, WaitMinSz(t, sz))
    ensures Quiet(Apply(s, WaitMinSz(t, sz)).state)
  {
    assert t !in s.w.waits.Keys;
    if !Live(s) || |s.queue| >= sz { AwakeQuiet(Apply(s, WaitMinSz(t, sz)).state, t); }
  }

  lemma WakeQuiet<T>(s: State<T>, t: Tid)
    requires WorkerInv(s) && Quiet(s) && t in s.c.sleep + s.w.sleep
    ensures Quiet(Wake(s, t))
  {
    if t !in s.c.sleep {
      assert t in s.w.waits.Keys;
      AwakeQuiet(Wake(s, t), t);
    }
  }
}
