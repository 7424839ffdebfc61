// No lost wakeup for the workers of the work queue.
module WorkQueueWorkers {
  import opened CondVar
  import opened WorkQueueSpec
  import opened WorkQueueInvariants

  // How many items a waiting worker waits for.
  ghost function Need(low: nat, w: WorkerWait): nat {
    match w case TakeWait => low case MinWait(sz) => sz
  }

  // The most items any worker waits for.
  function MaxNeed(p: Policy, low: nat): nat { if p.minsz > low then p.minsz else low }

  // Who waits, waits for some items.
  ghost predicate Needs<T>(p: Policy, s: State<T>) {
    forall t | t in s.w.waits :: 0 < Need(s.low, s.w.waits[t]) <= MaxNeed(p, s.low)
                                 && (s.w.waits[t].MinWait? ==> p.minsz > 0)
  }

  ghost predicate Few<T>(p: Policy, s: State<T>) { !p.many ==> |s.threads| <= 1 }

  // Workers in waitminsz do not compete with others.
  ghost predicate OneNeed(p: Policy) { p.minsz > 0 ==> !p.many }

  // A sleeping worker misses nothing: the items that would satisfy it are fewer than the
  // woken workers (late counts one that has just got the mutex).
  ghost predicate WorkersServed<T>(s: State<T>, late: nat) {
    Live(s) ==> Served(|s.queue|, s.low, s.w, late)
  }

  ghost predicate Served(queued: nat, low: nat, w: Cond<WorkerWait>, late: nat) {
    forall t | t in w.sleep && t in w.waits :: queued < Need(low, w.waits[t]) + |w.woken| + late
  }

  // All workers are asleep only while nobody has enough.
  ghost predicate Short<T>(p: Policy, s: State<T>) {
    s.threads != {} && s.w.sleep == s.threads ==> |s.queue| < MaxNeed(p, s.low)
  }

  // --- putting ---

  // A put that goes through wakes a sleeping worker.
  lemma PutDoes<T>(s: State<T>, t: Tid, item: T, flush: bool, pick: Tid)
    requires Exact(s.w) && PickOk(s.w, pick)
    ensures var s1 := PutLoop(s, t, item, flush, pick).state;
            && s1.low == s.low && s1.threads == s.threads
            && if s.high > 0 && |s.queue| >= s.high then s1.queue == s.queue && s1.w == s.w
               else |s1.queue| <= |s.queue| + 1 && s1.w == Signal(s.w, pick)
  {
    assert s.w.sleep != {} ==> pick in s.w.waits.Keys;
  }

  lemma SignalServes(queued: nat, low: nat, w: Cond<WorkerWait>, pick: Tid, more: nat)
    requires Exact(w) && PickOk(w, pick) && Served(queued, low, w, 0) && more <= queued + 1
    ensures Served(more, low, Signal(w, pick), 0)
  {
    if w.sleep != {} {
      assert |Signal(w, pick).woken| == |w.woken| + 1;
    }
  }

  lemma PutServes<T>(s: State<T>, t: Tid, item: T, flush: bool, pick: Tid)
    requires WorkerInv(s) && WorkersServed(s, 0) && PickOk(s.w, pick) && Live(s)
    ensures WorkersServed(PutLoop(s, t, item, flush, pick).state, 0)
  {
    var s1 := PutLoop(s, t, item, flush, pick).state;
    PutDoes(s, t, item, flush, pick);
    if !(s.high > 0 && |s.queue| >= s.high) {
      SignalServes(|s.queue|, s.low, s.w, pick, |s1.queue|);
    }
  }

  // --- going to sleep ---

  lemma Sole(threads: set<Tid>, a: Tid, b: Tid)
    requires |threads| <= 1 && a in threads && b in threads
    ensures a == b
  {
    var rest := threads - {a};
    assert |rest| == 0;
    assert b !in rest;
  }

  lemma SleepServes<T>(p: Policy, s: State<T>, t: Tid, wait: WorkerWait)
    requires WorkerInv(s) && Needs(p, s) && Few(p, s) && OneNeed(p) && FreeWorker(s, t)
    requires |s.queue| < Need(s.low, wait) && (wait.MinWait? ==> p.minsz > 0)
    ensures Served(|s.queue|, s.low, Sleep(s.w, t, wait), 0)
  {
    var w := Sleep(s.w, t, wait);
    forall u | u in w.sleep && u in w.waits ensures |s.queue| < Need(s.low, w.waits[u]) + |w.woken| {
      if u != t {
        assert u in s.w.waits.Keys;
        if p.minsz > 0 { Sole(s.threads, u, t); }
      }
    }
  }

  lemma TakeServes<T>(p: Policy, s: State<T>, t: Tid, pick: Tid)
    requires WorkerInv(s) && Needs(p, s) && Few(p, s) && OneNeed(p) && FreeWorker(s, t)
    requires WorkersServed(s, 1)
    ensures WorkersServed(TakeLoop(s, t, pick).state, 0)
  {
    if |s.queue| < s.low {
      SleepServes(p, s, t, TakeWait);
    } else {
      TakeFrame(s, t, pick);
      if s.queue == [] && s.low == 0 { NoTaker(p, s, t); }
    }
  }

  // With a low mark of 0 only waitminsz waits, and then there are no others.
  lemma NoTaker<T>(p: Policy, s: State<T>, t: Tid)
    requires WorkerInv(s) && Needs(p, s) && Few(p, s) && OneNeed(p) && FreeWorker(s, t) && s.low == 0
    ensures s.w.sleep == {}
  {
    if u :| u in s.w.sleep {
      assert u in s.w.waits.Keys && s.w.waits[u].MinWait?;
      Sole(s.threads, u, t);
    }
  }

  lemma MinServes<T>(p: Policy, s: State<T>, t: Tid, sz: nat)
    requires WorkerInv(s) && Needs(p, s) && Few(p, s) && OneNeed(p) && FreeWorker(s, t) && p.minsz > 0
    ensures WorkersServed(MinLoop(s, t, sz).state, 0)
  {
    if |s.queue| < sz {
      SleepServes(p, s, t, MinWait(sz));
    } else if u :| u in s.w.sleep {
      assert u in s.w.waits.Keys;
      Sole(s.threads, u, t);
    }
  }

  lemma LeaveServes<T>(s: State<T>, t: Tid)
    requires WorkerInv(s) && WorkersServed(s, 0) && t in s.w.woken
    ensures WorkersServed(s.(w := Leave(s.w, t)), 1)
  {
    assert |s.w.woken| == |Leave(s.w, t).woken| + 1;
  }

  lemma WorkerWokenServes<T>(p: Policy, s: State<T>, t: Tid, pick: Tid)
    requires WorkerInv(s) && Needs(p, s) && Few(p, s) && OneNeed(p) && WorkersServed(s, 0)
    requires t in s.w.woken && t in s.w.waits
    ensures WorkersServed(WorkerWoken(s, t, pick).state, 0)
  {
    var s1 := s.(w := Leave(s.w, t));
    LeaveWorkers(s, t);
    LeaveServes(s, t);
    match s.w.waits[t] {
      case TakeWait =>
        TakeAgain(s, t, pick);
        if Live(s1) { TakeServes(p, s1, t, pick); }
      case MinWait(sz) =>
        MinAgain(s, t, pick);
        if Live(s1) { MinServes(p, s1, t, sz); }
    }
  }

  // --- the other steps ---

  lemma TermServes<T>(s: State<T>, t: Tid)
    requires WorkerInv(s)
    ensures WorkersServed(TermLoop(s, t).state, 0)
  {
  }

  lemma ClientWokenServes<T>(s: State<T>, t: Tid, pick: Tid)
    requires WorkerInv(s) && WorkersServed(s, 0) && t in s.c.waits && PickOk(s.w, pick)
    ensures WorkersServed(ClientWoken(s, t, pick).state, 0)
  {
    var s1 := s.(c := Leave(s.c, t));
    match s.c.waits[t] {
      case PutWait(item, flush) =>
        PutAgain(s, t, pick);
        if Live(s1) { PutServes(s1, t, item, flush, pick); }
      case IdleWait =>
        IdleAgain(s, t, pick);
        IdleFrame(s1, t);
      case TermWait =>
        TermAgain(s, t, pick);
        TermServes(s1, t);
    }
  }

  lemma WakeServes<T>(s: State<T>, t: Tid)
    requires WorkerInv(s) && WorkersServed(s, 0) && t in s.c.sleep + s.w.sleep
    ensures WorkersServed(Wake(s, t), 0)
  {
    if t !in s.c.sleep && Live(s) {
      SignalServes(|s.queue|, s.low, s.w, t, |s.queue|);
    }
  }

  lemma StartServes<T>(s: State<T>, ws: set<Tid>)
    requires WorkerInv(s) && WorkersServed(s, 0)
    ensures WorkersServed(s.(threads := s.threads + ws), 0)
  {
    if s.threads == {} { assert s.w.sleep == {}; }
  }

  // Served workers stay served, if those that wait for a size do not compete with others.
  lemma StepServes<T>(p: Policy, s: State<T>, step: Step<T>)
    requires WorkerInv(s) && Needs(p, s) && Few(p, s) && OneNeed(p) && WorkersServed(s, 0) && Allowed(p, s, step)
    ensures WorkersServed(Apply(s, step).state, 0)
  {
    match step {
      case Start(ws) => StartServes(s, ws);
      case Put(t, item, flush, pick) =>
        if Live(s) { PutServes(s, t, item, flush, pick); }
      case WaitIdle(t) =>
        if Live(s) { IdleFrame(s, t); }
      case Terminate(t) =>
        if s.threads != {} { TermServes(s.(mOk := false), t); }
      case Take(t, pick) =>
        if Live(s) { TakeServes(p, s, t, pick); }
      case WaitMinSz(t, sz) =>
        if Live(s) && sz > 0 { MinServes(p, s, t, sz); }
      case WorkerExit(t, status) => assert !Live(Apply(s, step).state);
      case ResumeClient(t, pick) => ClientWokenServes(s, t, pick);
      case ResumeWorker(t, pick) => WorkerWokenServes(p, s, t, pick);
      case Spurious(t) => WakeServes(s, t);
    }
  }

  // --- what they wait for ---

  lemma SleepNeeds<T>(p: Policy, s: State<T>, t: Tid, wait: WorkerWait)
    requires Needs(p, s) && 0 < Need(s.low, wait) <= MaxNeed(p, s.low) && (wait.MinWait? ==> p.minsz > 0)
    ensures Needs(p, SleepW(s, t, wait))
  {
  }

  lemma NeedsFrame<T>(p: Policy, s: State<T>, s1: State<T>)
    requires Needs(p, s) && s1.low == s.low
    requires forall t | t in s1.w.waits :: t in s.w.waits && s1.w.waits[t] == s.w.waits[t]
    ensures Needs(p, s1)
  {
  }

  lemma StepNeeds<T>(p: Policy, s: State<T>, step: Step<T>)
    requires Needs(p, s) && Allowed(p, s, step)
    ensures Needs(p, Apply(s, step).state)
  {
    match step {
      case Take(t, pick) =>
        if Live(s) { TakeNeeds(p, s, t, pick); }
      case WaitMinSz(t, sz) =>
        if Live(s) { MinNeeds(p, s, t, sz); }
      case ResumeWorker(t, pick) => WokenNeeds(p, s, t, pick);
      case ResumeClient(t, pick) => ClientWokenWaits(s, t, pick);
      case _ => OtherWaits(s, step);
    }
  }

  // Clients do not change what workers wait for.
  lemma ClientWokenWaits<T>(s: State<T>, t: Tid, pick: Tid)
    requires t in s.c.waits
    ensures var s1 := ClientWoken(s, t, pick).state; s1.low == s.low && s1.w.waits == s.w.waits
  {
  }

  lemma OtherWaits<T>(s: State<T>, step: Step<T>)
    requires Enabled(s, step)
    requires !step.Take? && !step.WaitMinSz? && !step.ResumeWorker? && !step.ResumeClient?
    ensures var s1 := Apply(s, step).state; s1.low == s.low && s1.w.waits == s.w.waits
  {
    match step {
      case Put(t, item, flush, pick) =>
        if Live(s) { PutFrame(s, t, item, flush, pick); }
      case WaitIdle(t) =>
        if Live(s) { IdleFrame(s, t); }
      case _ =>
    }
  }

  lemma TakeNeeds<T>(p: Policy, s: State<T>, t: Tid, pick: Tid)
    requires Needs(p, s)
    ensures Needs(p, TakeLoop(s, t, pick).state)
  {
    if |s.queue| < s.low {
      SleepNeeds(p, s, t, TakeWait);
    } else {
      NeedsFrame(p, s, TakeLoop(s, t, pick).state);
    }
  }

  lemma MinNeeds<T>(p: Policy, s: State<T>, t: Tid, sz: nat)
    requires Needs(p, s) && sz <= MaxNeed(p, s.low) && (sz > 0 ==> p.minsz > 0)
    ensures Needs(p, MinLoop(s, t, sz).state)
  {
    if |s.queue| < sz { SleepNeeds(p, s, t, MinWait(sz)); }
  }

  lemma WokenNeeds<T>(p: Policy, s: State<T>, t: Tid, pick: Tid)
    requires Needs(p, s) && t in s.w.waits
    ensures Needs(p, WorkerWoken(s, t, pick).state)
  {
    var s1 := s.(w := Leave(s.w, t));
    NeedsFrame(p, s, s1);
    match s.w.waits[t] {
      case TakeWait =>
        TakeAgain(s, t, pick);
        if Live(s1) { TakeNeeds(p, s1, t, pick); }
      case MinWait(sz) =>
        MinAgain(s, t, pick);
        if Live(s1) { MinNeeds(p, s1, t, sz); }
    }
  }

  lemma StepFew<T>(p: Policy, s: State<T>, step: Step<T>)
    requires Few(p, s) && Allowed(p, s, step)
    ensures Few(p, Apply(s, step).state)
  {
    match step {
      case Start(_) =>
      case ResumeClient(t, pick) => ClientWokenThreads(s, t, pick);
      case _ => OtherThreads(s, step);
    }
  }

  lemma ClientWokenThreads<T>(s: State<T>, t: Tid, pick: Tid)
    requires t in s.c.waits
    ensures ClientWoken(s, t, pick).state.threads <= s.threads
  {
  }

  lemma OtherThreads<T>(s: State<T>, step: Step<T>)
    requires Enabled(s, step) && !step.Start? && !step.ResumeClient?
    ensures Apply(s, step).state.threads in {s.threads, {}}
  {
  }

  // --- nobody has enough when all are asleep ---

  lemma AwakeShort<T>(p: Policy, s: State<T>, t: Tid)
    requires t in s.threads && t !in s.w.sleep
    ensures Short(p, s)
  {
  }

  lemma SleepShort<T>(p: Policy, s: State<T>, t: Tid, wait: WorkerWait)
    requires |s.queue| < Need(s.low, wait) <= MaxNeed(p, s.low)
    ensures Short(p, SleepW(s, t, wait))
  {
  }

  lemma PutShort<T>(p: Policy, s: State<T>, t: Tid, item: T, flush: bool, pick: Tid)
    requires WorkerInv(s) && Short(p, s) && PickOk(s.w, pick)
    ensures Short(p, PutLoop(s, t, item, flush, pick).state)
  {
    PutDoes(s, t, item, flush, pick);
    if !(s.high > 0 && |s.queue| >= s.high) && s.w.sleep != {} {
      assert pick in s.w.waits.Keys;
      AwakeShort(p, PutLoop(s, t, item, flush, pick).state, pick);
    }
  }

  lemma TakeShort<T>(p: Policy, s: State<T>, t: Tid, pick: Tid)
    requires WorkerInv(s) && FreeWorker(s, t)
    ensures Short(p, TakeLoop(s, t, pick).state)
  {
    if |s.queue| < s.low {
      SleepShort(p, s, t, TakeWait);
    } else {
      TakeFrame(s, t, pick);
      AwakeShort(p, TakeLoop(s, t, pick).state, t);
    }
  }

  lemma MinShort<T>(p: Policy, s: State<T>, t: Tid, sz: nat)
    requires WorkerInv(s) && FreeWorker(s, t) && sz <= MaxNeed(p, s.low)
    ensures Short(p, MinLoop(s, t, sz).state)
  {
    if |s.queue| < sz {
      SleepShort(p, s, t, MinWait(sz));
    } else {
      AwakeShort(p, s, t);
    }
  }

  lemma TermShort<T>(p: Policy, s: State<T>, t: Tid)
    requires Short(p, s)
    ensures Short(p, TermLoop(s, t).state)
  {
  }

  lemma PutWokenShort<T>(p: Policy, s: State<T>, t: Tid, pick: Tid)
    requires WorkerInv(s) && Short(p, s) && t in s.c.waits && s.c.waits[t].PutWait? && PickOk(s.w, pick)
    ensures Short(p, ClientWoken(s, t, pick).state)
  {
    var s1 := s.(c := Leave(s.c, t));
    PutAgain(s, t, pick);
    if Live(s1) { PutShort(p, s1, t, s.c.waits[t].item, s.c.waits[t].flush, pick); }
  }

  lemma ClientWokenShort<T>(p: Policy, s: State<T>, t: Tid, pick: Tid)
    requires WorkerInv(s) && Short(p, s) && t in s.c.waits && PickOk(s.w, pick)
    ensures Short(p, ClientWoken(s, t, pick).state)
  {
    match s.c.waits[t] {
      case PutWait(_, _) => PutWokenShort(p, s, t, pick);
      case IdleWait =>
        IdleAgain(s, t, pick);
        IdleFrame(s.(c := Leave(s.c, t)), t);
      case TermWait =>
        TermAgain(s, t, pick);
        TermShort(p, s.(c := Leave(s.c, t)), t);
    }
  }

  lemma WorkerWokenShort<T>(p: Policy, s: State<T>, t: Tid, pick: Tid)
    requires WorkerInv(s) && Needs(p, s) && t in s.w.woken && t in s.w.waits
    ensures Short(p, WorkerWoken(s, t, pick).state)
  {
    var s1 := s.(w := Leave(s.w, t));
    LeaveWorkers(s, t);
    match s.w.waits[t] {
      case TakeWait =>
        TakeAgain(s, t, pick);
        if Live(s1) { TakeShort(p, s1, t, pick); } else { AwakeShort(p, Refuse(s1, t).state, t); }
      case MinWait(sz) =>
        MinAgain(s, t, pick);
        if Live(s1) { MinShort(p, s1, t, sz); } else { AwakeShort(p, Refuse(s1, t).state, t); }
    }
  }

  lemma WakeShort<T>(p: Policy, s: State<T>, t: Tid)
    requires WorkerInv(s) && Short(p, s) && t in s.c.sleep + s.w.sleep
    ensures Short(p, Wake(s, t))
  {
    if t !in s.c.sleep {
      assert t in s.w.waits.Keys;
      AwakeShort(p, Wake(s, t), t);
    }
  }

  lemma StartShort<T>(p: Policy, s: State<T>, ws: set<Tid>)
    requires WorkerInv(s) && Short(p, s) && ws !! s.threads
    ensures Short(p, s.(threads := s.threads + ws))
  {
    if t :| t in ws {
      assert t !in s.w.waits.Keys;
      AwakeShort(p, s.(threads := s.threads + ws), t);
    } else {
      assert s.threads + ws == s.threads;
    }
  }

  // It stays so in every step, whatever the mix of take and waitminsz.
  lemma StepShort<T>(p: Policy, s: State<T>, step: Step<T>)
    requires WorkerInv(s) && Needs(p, s) && Short(p, s) && Allowed(p, s, step)
    ensures Short(p, Apply(s, step).state)
  {
    match step {
      case Start(ws) => StartShort(p, s, ws);
      case Put(t, item, flush, pick) =>
        if Live(s) { PutShort(p, s, t, item, flush, pick); }
      case WaitIdle(t) =>
        if Live(s) { IdleFrame(s, t); }
      case Terminate(t) =>
        if s.threads != {} { TermShort(p, s.(mOk := false), t); }
      case Take(t, pick) =>
        if Live(s) { TakeShort(p, s, t, pick); }
      case WaitMinSz(t, sz) =>
        if Live(s) { MinShort(p, s, t, sz); }
      case WorkerExit(t, status) =>
      case ResumeClient(t, pick) => ClientWokenShort(p, s, t, pick);
      case ResumeWorker(t, pick) => WorkerWokenShort(p, s, t, pick);
      case Spurious(t) => WakeShort(p, s, t);
    }
  }
}
