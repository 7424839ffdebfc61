// What every step of the work queue keeps, whatever the interleaving. The half about the workers
// does not depend on the clients' condition variable, nor on their counter.
module WorkQueueInvariants {
  import opened CondVar
  import opened WorkQueueSpec

  // exited counts the workers that called workerExit.
  ghost predicate Exits<T>(s: State<T>) {
    && s.quit + s.gone <= s.threads
    && s.quit !! s.gone
    && s.failed <= s.gone
    && s.exited == |s.gone|
    && (s.gone != {} ==> !s.mOk)
    && (!s.mOk ==> s.threads != {})
  }

  // The worker counter is exact, and only workers that may go on wait.
  ghost predicate Waits<T>(s: State<T>) {
    && Exact(s.w)
    && s.w.waits.Keys <= s.threads - s.gone - s.quit
  }

  ghost predicate WorkerInv<T>(s: State<T>) { Exits(s) && Waits(s) }

  // The client counter is exact, clients are not workers, and while a terminator waits the queue
  // is shut.
  ghost predicate ClientInv<T>(s: State<T>) {
    && Exact(s.c)
    && s.c.waits.Keys !! s.threads
    && (forall t | t in s.c.waits && s.c.waits[t].TermWait? :: !s.mOk)
    && (s.threads == {} ==> s.c.waits == map[])
  }

  ghost predicate Inv<T>(s: State<T>) { WorkerInv(s) && ClientInv(s) }

  lemma AllGone<T>(s: State<T>)
    requires Exits(s) && s.exited >= |s.threads|
    ensures s.gone == s.threads
  {
    assert |s.threads - s.gone| == |s.threads| - |s.gone|;
  }

  // --- what follows the wait ---

  lemma PutAgain<T>(s: State<T>, t: Tid, pick: Tid)
    requires t in s.c.waits && s.c.waits[t].PutWait?
    ensures var s1, w := s.(c := Leave(s.c, t)), s.c.waits[t];
            ClientWoken(s, t, pick)
            == if Live(s1) then PutLoop(s1, t, w.item, w.flush, pick) else Result(s1, Returns(false))
  {
  }

  lemma IdleAgain<T>(s: State<T>, t: Tid, pick: Tid)
    requires t in s.c.waits && s.c.waits[t].IdleWait?
    ensures ClientWoken(s, t, pick) == IdleLoop(s.(c := Leave(s.c, t)), t)
  {
  }

  lemma TermAgain<T>(s: State<T>, t: Tid, pick: Tid)
    requires t in s.c.waits && s.c.waits[t].TermWait?
    ensures ClientWoken(s, t, pick) == TermLoop(s.(c := Leave(s.c, t)), t)
  {
  }

  lemma TakeAgain<T>(s: State<T>, t: Tid, pick: Tid)
    requires t in s.w.waits && s.w.waits[t].TakeWait?
    ensures var s1 := s.(w := Leave(s.w, t));
            WorkerWoken(s, t, pick) == if Live(s1) then TakeLoop(s1, t, pick) else Refuse(s1, t)
  {
  }

  lemma MinAgain<T>(s: State<T>, t: Tid, pick: Tid)
    requires t in s.w.waits && s.w.waits[t].MinWait?
    ensures var s1 := s.(w := Leave(s.w, t));
            WorkerWoken(s, t, pick) == if Live(s1) then MinLoop(s1, t, s.w.waits[t].sz) else Refuse(s1, t)
  {
  }

  // --- the workers ---

  ghost predicate SameWorkers<T>(s: State<T>, s1: State<T>) {
    && s1.threads == s.threads && s1.quit == s.quit && s1.gone == s.gone && s1.failed == s.failed
    && s1.exited == s.exited && s1.mOk == s.mOk
  }

  lemma WorkerFrame<T>(s: State<T>, s1: State<T>, pick: Tid)
    requires WorkerInv(s) && SameWorkers(s, s1) && PickOk(s.w, pick)
    requires s1.w == s.w || s1.w == Signal(s.w, pick)
    ensures WorkerInv(s1)
  {
    SignalExact(s.w, pick);
  }

  lemma PutFrame<T>(s: State<T>, t: Tid, item: T, flush: bool, pick: Tid)
    ensures var s1 := PutLoop(s, t, item, flush, pick).state;
            SameWorkers(s, s1) && s1.low == s.low && (s1.w == s.w || s1.w == Signal(s.w, pick))
  {
  }

  lemma IdleFrame<T>(s: State<T>, t: Tid)
    ensures var s1 := IdleLoop(s, t).state;
            SameWorkers(s, s1) && s1.low == s.low && s1.queue == s.queue && s1.w == s.w
  {
  }

  lemma PutWorkers<T>(s: State<T>, t: Tid, item: T, flush: bool, pick: Tid)
    requires WorkerInv(s) && PickOk(s.w, pick)
    ensures WorkerInv(PutLoop(s, t, item, flush, pick).state)
  {
    PutFrame(s, t, item, flush, pick);
    WorkerFrame(s, PutLoop(s, t, item, flush, pick).state, pick);
  }

  lemma TermWorkers<T>(s: State<T>, t: Tid)
    requires WorkerInv(s)
    ensures WorkerInv(TermLoop(s, t).state)
  {
    if s.exited < |s.threads| {
      BroadcastExact(s.w);
    } else {
      AllGone(s);
      assert s.w.waits.Keys == {};
    }
  }

  lemma SleepWorkers<T>(s: State<T>, t: Tid, wait: WorkerWait)
    requires WorkerInv(s) && FreeWorker(s, t) && t !in s.quit
    ensures WorkerInv(SleepW(s, t, wait))
  {
    SleepExact(s.w, t, wait);
  }

  lemma TakeFrame<T>(s: State<T>, t: Tid, pick: Tid)
    requires |s.queue| >= s.low
    ensures var s1 := TakeLoop(s, t, pick).state; SameWorkers(s, s1) && s1.w == s.w
  {
  }

  lemma TakeWorkers<T>(s: State<T>, t: Tid, pick: Tid)
    requires WorkerInv(s) && FreeWorker(s, t) && t !in s.quit
    ensures WorkerInv(TakeLoop(s, t, pick).state)
  {
    if |s.queue| < s.low {
      SleepWorkers(s, t, TakeWait);
    } else {
      TakeFrame(s, t, pick);
    }
  }

  lemma MinWorkers<T>(s: State<T>, t: Tid, sz: nat)
    requires WorkerInv(s) && FreeWorker(s, t) && t !in s.quit
    ensures WorkerInv(MinLoop(s, t, sz).state)
  {
    if |s.queue| < sz {
      SleepWorkers(s, t, MinWait(sz));
    }
  }

  lemma PutWokenWorkers<T>(s: State<T>, t: Tid, pick: Tid)
    requires WorkerInv(s) && t in s.c.waits && s.c.waits[t].PutWait? && PickOk(s.w, pick)
    ensures WorkerInv(ClientWoken(s, t, pick).state)
  {
    var s1 := s.(c := Leave(s.c, t));
    PutAgain(s, t, pick);
    if Live(s1) { PutWorkers(s1, t, s.c.waits[t].item, s.c.waits[t].flush, pick); }
  }

  lemma ClientWokenWorkers<T>(s: State<T>, t: Tid, pick: Tid)
    requires WorkerInv(s) && t in s.c.waits && PickOk(s.w, pick)
    ensures WorkerInv(ClientWoken(s, t, pick).state)
  {
    match s.c.waits[t] {
      case PutWait(_, _) => PutWokenWorkers(s, t, pick);
      case IdleWait => IdleAgain(s, t, pick);
      case TermWait =>
        TermAgain(s, t, pick);
        TermWorkers(s.(c := Leave(s.c, t)), t);
    }
  }

  lemma LeaveWorkers<T>(s: State<T>, t: Tid)
    requires WorkerInv(s) && t in s.w.woken
    ensures var s1 := s.(w := Leave(s.w, t)); WorkerInv(s1) && FreeWorker(s1, t) && t !in s1.quit
  {
    LeaveExact(s.w, t);
  }

  lemma WorkerWokenWorkers<T>(s: State<T>, t: Tid, pick: Tid)
    requires WorkerInv(s) && t in s.w.woken && t in s.w.waits
    ensures WorkerInv(WorkerWoken(s, t, pick).state)
  {
    var s1 := s.(w := Leave(s.w, t));
    LeaveWorkers(s, t);
    match s.w.waits[t] {
      case TakeWait =>
        TakeAgain(s, t, pick);
        if Live(s1) { TakeWorkers(s1, t, pick); }
      case MinWait(sz) =>
        MinAgain(s, t, pick);
        if Live(s1) { MinWorkers(s1, t, sz); }
    }
  }

  lemma ExitCounts<T>(s: State<T>, t: Tid, status: bool)
    requires Exits(s) && FreeWorker(s, t)
    ensures Exits(Exit(s, t, status))
  {
    Threads(s.gone + {t});
    assert s.gone + {t} <= s.threads && (s.quit - {t}) + (s.gone + {t}) <= s.threads;
  }

  lemma ExitWaits<T>(s: State<T>, t: Tid, status: bool)
    requires Waits(s) && FreeWorker(s, t)
    ensures Waits(Exit(s, t, status))
  {
  }

  lemma ExitWorkers<T>(s: State<T>, t: Tid, status: bool)
    requires WorkerInv(s) && FreeWorker(s, t)
    ensures WorkerInv(Exit(s, t, status))
  {
    ExitCounts(s, t, status);
    ExitWaits(s, t, status);
  }

  lemma WakeWorkers<T>(s: State<T>, t: Tid)
    requires WorkerInv(s) && t in s.c.sleep + s.w.sleep
    ensures WorkerInv(Wake(s, t))
  {
    if t !in s.c.sleep { SignalExact(s.w, t); }
  }

  // Every step of every thread keeps the half of the workers.
  lemma StepWorkers<T>(s: State<T>, step: Step<T>)
    requires WorkerInv(s) && Enabled(s, step)
    ensures WorkerInv(Apply(s, step).state)
  {
    match step {
      case Start(ws) =>
      case Put(t, item, flush, pick) => PutWorkers(s, t, item, flush, pick);
      case WaitIdle(t) =>
      case Terminate(t) =>
        if s.threads != {} { TermWorkers(s.(mOk := false), t); }
      case Take(t, pick) =>
        if Live(s) { TakeWorkers(s, t, pick); }
      case WaitMinSz(t, sz) =>
        if Live(s) { MinWorkers(s, t, sz); }
      case WorkerExit(t, status) => ExitWorkers(s, t, status);
      case ResumeClient(t, pick) => ClientWokenWorkers(s, t, pick);
      case ResumeWorker(t, pick) => WorkerWokenWorkers(s, t, pick);
      case Spurious(t) => WakeWorkers(s, t);
    }
  }

  // --- the clients ---

  lemma InsideClients<T>(s: State<T>, t: Tid, wait: ClientWait<T>)
    requires ClientInv(s) && FreeClient(s, t) && s.threads != {} && (wait.TermWait? ==> !s.mOk)
    ensures ClientInv(s.(c := Sleep(s.c, t, wait)))
  {
    SleepExact(s.c, t, wait);
  }

  ghost predicate SameClients<T>(s: State<T>, s1: State<T>) {
    s1.c == s.c && s1.threads == s.threads && s1.mOk == s.mOk
  }

  lemma PutGoes<T>(s: State<T>, t: Tid, item: T, flush: bool, pick: Tid)
    requires !(s.high > 0 && |s.queue| >= s.high)
    ensures SameClients(s, PutLoop(s, t, item, flush, pick).state)
  {
  }

  lemma PutClients<T>(s: State<T>, t: Tid, item: T, flush: bool, pick: Tid)
    requires ClientInv(s) && Live(s) && FreeClient(s, t)
    ensures ClientInv(PutLoop(s, t, item, flush, pick).state)
  {
    if s.high > 0 && |s.queue| >= s.high {
      InsideClients(s, t, PutWait(item, flush));
    } else {
      PutGoes(s, t, item, flush, pick);
    }
  }

  lemma IdleClients<T>(s: State<T>, t: Tid)
    requires ClientInv(s) && FreeClient(s, t)
    ensures ClientInv(IdleLoop(s, t).state)
  {
    if Live(s) { InsideClients(s, t, IdleWait); }
  }

  // The reset is the only thing that can break this half, and does unless nobody is inside.
  lemma TermClients<T>(s: State<T>, t: Tid)
    requires ClientInv(s) && FreeClient(s, t) && !s.mOk && s.threads != {}
    ensures ClientInv(TermLoop(s, t).state) <==> (s.exited >= |s.threads| ==> s.c.waits == map[])
  {
    if s.exited < |s.threads| {
      InsideClients(s, t, TermWait);
    } else if s.c.waits != map[] {
      assert s.c.waits.Keys != {};
    }
  }

  lemma SleepClients<T>(s: State<T>, t: Tid, wait: WorkerWait)
    requires ClientInv(s)
    ensures ClientInv(SleepW(s, t, wait))
  {
    BroadcastExact(s.c);
  }

  lemma TakeClients<T>(s: State<T>, t: Tid, pick: Tid)
    requires ClientInv(s) && PickOk(s.c, pick)
    ensures ClientInv(TakeLoop(s, t, pick).state)
  {
    if |s.queue| < s.low {
      SleepClients(s, t, TakeWait);
    } else {
      SignalExact(s.c, pick);
    }
  }

  lemma MinClients<T>(s: State<T>, t: Tid, sz: nat)
    requires ClientInv(s)
    ensures ClientInv(MinLoop(s, t, sz).state)
  {
    if |s.queue| < sz {
      SleepClients(s, t, MinWait(sz));
    }
  }

  lemma ClientLeaves<T>(s: State<T>, t: Tid)
    requires ClientInv(s) && t in s.c.woken
    ensures ClientInv(s.(c := Leave(s.c, t)))
    ensures FreeClient(s.(c := Leave(s.c, t)), t)
    ensures s.threads != {} && (s.c.waits[t].TermWait? ==> !s.mOk)
    ensures Leave(s.c, t).waits == map[] <==> s.c.waits.Keys <= {t}
  {
    LeaveExact(s.c, t);
    assert Leave(s.c, t).waits == map[] <==> Leave(s.c, t).waits.Keys == {};
  }

  // The step does not reset the queue under another client.
  ghost predicate Clean<T>(s: State<T>, step: Step<T>) {
    Resets(s, step) ==> s.c.waits.Keys <= {step.t}
  }

  lemma ClientWokenClients<T>(s: State<T>, t: Tid, pick: Tid)
    requires ClientInv(s) && t in s.c.woken
    ensures ClientInv(ClientWoken(s, t, pick).state) <==> Clean(s, ResumeClient(t, pick))
  {
    var s1 := s.(c := Leave(s.c, t));
    ClientLeaves(s, t);
    match s.c.waits[t] {
      case PutWait(item, flush) =>
        PutAgain(s, t, pick);
        if Live(s1) { PutClients(s1, t, item, flush, pick); }
      case IdleWait =>
        IdleAgain(s, t, pick);
        IdleClients(s1, t);
      case TermWait =>
        TermAgain(s, t, pick);
        TermClients(s1, t);
    }
  }

  lemma WorkerWokenClients<T>(s: State<T>, t: Tid, pick: Tid)
    requires ClientInv(s) && t in s.w.waits && PickOk(s.c, pick)
    ensures ClientInv(WorkerWoken(s, t, pick).state)
  {
    var s1 := s.(w := Leave(s.w, t));
    match s.w.waits[t] {
      case TakeWait =>
        TakeAgain(s, t, pick);
        if Live(s1) { TakeClients(s1, t, pick); }
      case MinWait(sz) =>
        MinAgain(s, t, pick);
        if Live(s1) { MinClients(s1, t, sz); }
    }
  }

  lemma ExitClients<T>(s: State<T>, t: Tid, status: bool)
    requires ClientInv(s)
    ensures ClientInv(Exit(s, t, status))
  {
    BroadcastExact(s.c);
  }

  lemma WakeClients<T>(s: State<T>, t: Tid)
    requires ClientInv(s) && t in s.c.sleep + s.w.sleep
    ensures ClientInv(Wake(s, t))
  {
    if t in s.c.sleep { SignalExact(s.c, t); }
  }

  // A step keeps the half of the clients if and only if it does not reset the queue under another
  // client.
  lemma StepClients<T>(s: State<T>, step: Step<T>)
    requires ClientInv(s) && Enabled(s, step)
    ensures ClientInv(Apply(s, step).state) <==> Clean(s, step)
  {
    match step {
      case Start(ws) =>
      case Put(t, item, flush, pick) =>
        if Live(s) { PutClients(s, t, item, flush, pick); }
      case WaitIdle(t) =>
        if Live(s) { IdleClients(s, t); }
      case Terminate(t) => TerminateClients(s, t);
      case Take(t, pick) =>
        if Live(s) { TakeClients(s, t, pick); }
      case WaitMinSz(t, sz) =>
        if Live(s) { MinClients(s, t, sz); }
      case WorkerExit(t, status) => ExitClients(s, t, status);
      case ResumeClient(t, pick) => ClientWokenClients(s, t, pick);
      case ResumeWorker(t, pick) => WorkerWokenClients(s, t, pick);
      case Spurious(t) => WakeClients(s, t);
    }
  }

  lemma TerminateClients<T>(s: State<T>, t: Tid)
    requires ClientInv(s) && FreeClient(s, t)
    ensures ClientInv(Apply(s, Terminate(t)).state) <==> Clean(s, Terminate(t))
  {
    if s.threads != {} {
      TermClients(s.(mOk := false), t);
      assert s.c.waits.Keys <= {t} <==> s.c.waits == map[] by {
        assert s.c.waits.Keys <= {t} ==> s.c.waits.Keys == {};
      }
    }
  }

  // Every step keeps both halves, if and only if it does not reset the queue under another client.
  lemma StepKeeps<T>(s: State<T>, step: Step<T>)
    requires Inv(s) && Enabled(s, step)
    ensures Inv(Apply(s, step).state) <==> Clean(s, step)
  {
    StepWorkers(s, step);
    StepClients(s, step);
  }

  // No step of the run resets the queue under another client.
  ghost predicate CleanRun<T>(p: Policy, s: State<T>, steps: seq<Step<T>>)
    requires Run(p, s, steps)
    decreases |steps|
  {
    steps == [] ||
    var most := steps[..|steps| - 1];
    CleanRun(p, s, most) && Clean(Exec(p, s, most), steps[|steps| - 1])
  }

  // Such runs are those of a program whose policy forbids it.
  lemma {:induction false} CleanPolicy<T>(p: Policy, s: State<T>, steps: seq<Step<T>>)
    requires Run(p, s, steps)
    ensures var q := p.(crowd := false);
            (CleanRun(p, s, steps) <==> Run(q, s, steps))
            && (Run(q, s, steps) ==> Exec(q, s, steps) == Exec(p, s, steps))
    decreases |steps|
  {
    if steps != [] { CleanPolicy(p, s, steps[..|steps| - 1]); }
  }
}
