// Shutting the work queue down: workers leave, the terminator is told, everything is reset.
module WorkQueueShutdown {
  import opened CondVar
  import opened WorkQueueSpec
  import opened WorkQueueInvariants

  // While a terminator is inside, no worker sleeps; while it sleeps, some worker has yet to leave.
  ghost predicate TermServed<T>(s: State<T>) {
    forall t | t in s.c.waits && s.c.waits[t].TermWait? ::
      s.w.sleep == {} && (t in s.c.sleep ==> |s.gone| < |s.threads|)
  }

  lemma StartTerm<T>(s: State<T>, ws: set<Tid>)
    requires TermServed(s) && ws !! s.threads
    ensures TermServed(s.(threads := s.threads + ws))
  {
    assert |s.threads + ws| == |s.threads| + |ws|;
  }

  lemma TermTerm<T>(s: State<T>, t: Tid)
    requires WorkerInv(s) && TermServed(s)
    ensures TermServed(TermLoop(s, t).state)
  {
    if s.exited < |s.threads| {
      assert Broadcast(s.w).sleep == {};
    } else {
      AllGone(s);
      assert s.w.waits.Keys == {};
    }
  }

  // Nobody terminates a queue that is not shut.
  lemma OpenTerm<T>(s: State<T>)
    requires ClientInv(s) && s.mOk
    ensures TermServed(s)
  {
  }

  // A client of a dead queue only leaves.
  lemma DeadWoken<T>(s: State<T>, t: Tid, pick: Tid)
    requires t in s.c.waits && !s.c.waits[t].TermWait? && !Live(s)
    ensures ClientWoken(s, t, pick).state == s.(c := Leave(s.c, t))
  {
    if s.c.waits[t].PutWait? { PutAgain(s, t, pick); } else { IdleAgain(s, t, pick); }
  }

  lemma LeaveTerm<T>(s: State<T>, t: Tid)
    requires TermServed(s)
    ensures TermServed(s.(c := Leave(s.c, t)))
  {
  }

  lemma ClientTerm<T>(s: State<T>, t: Tid, pick: Tid)
    requires WorkerInv(s) && TermServed(s) && t in s.c.waits && !s.mOk
    ensures TermServed(ClientWoken(s, t, pick).state)
  {
    LeaveTerm(s, t);
    if s.c.waits[t].TermWait? {
      TermAgain(s, t, pick);
      TermTerm(s.(c := Leave(s.c, t)), t);
    } else {
      DeadWoken(s, t, pick);
    }
  }

  lemma WorkerTerm<T>(s: State<T>, t: Tid, pick: Tid)
    requires TermServed(s) && t in s.w.waits && !s.mOk
    ensures TermServed(WorkerWoken(s, t, pick).state)
  {
    if s.w.waits[t].TakeWait? { TakeAgain(s, t, pick); } else { MinAgain(s, t, pick); }
  }

  lemma ExitTerm<T>(s: State<T>, t: Tid, status: bool)
    requires TermServed(s)
    ensures TermServed(Exit(s, t, status))
  {
  }

  lemma ShutTerm<T>(s: State<T>, step: Step<T>)
    requires Inv(s) && TermServed(s) && Enabled(s, step) && !s.mOk
    ensures TermServed(Apply(s, step).state)
  {
    match step {
      case Start(ws) => StartTerm(s, ws);
      case Terminate(t) => TermTerm(s, t);
      case ResumeClient(t, pick) => ClientTerm(s, t, pick);
      case ResumeWorker(t, pick) => WorkerTerm(s, t, pick);
      case WorkerExit(t, status) => ExitTerm(s, t, status);
      case Spurious(t) => WakeTerm(s, t);
      case Put(_, _, _, _) => assert Apply(s, step).state == s;
      case WaitIdle(_) => assert Apply(s, step).state == s;
      case Take(t, _) => assert Apply(s, step).state == Refuse(s, t).state;
      case WaitMinSz(t, _) => assert Apply(s, step).state == Refuse(s, t).state;
    }
  }

  lemma WakeTerm<T>(s: State<T>, t: Tid)
    requires TermServed(s)
    ensures TermServed(Wake(s, t))
  {
  }

  lemma StepTerm<T>(s: State<T>, step: Step<T>)
    requires Inv(s) && TermServed(s) && Enabled(s, step)
    ensures TermServed(Apply(s, step).state)
  {
    if !s.mOk {
      ShutTerm(s, step);
    } else if step.Terminate? {
      if s.threads != {} { TermTerm(s.(mOk := false), step.t); }
    } else if step.WorkerExit? {
      ExitTerm(s, step.t, step.status);
    } else {
      StepKeeps(s, step);
      StepOpen(s, step);
      OpenTerm(Apply(s, step).state);
    }
  }

  lemma ClientOpen<T>(s: State<T>, t: Tid, pick: Tid)
    requires s.mOk && t in s.c.waits
    ensures ClientWoken(s, t, pick).state.mOk
  {
    match s.c.waits[t] {
      case PutWait(_, _) => PutAgain(s, t, pick);
      case IdleWait => IdleAgain(s, t, pick);
      case TermWait => TermAgain(s, t, pick);
    }
  }

  lemma WorkerOpen<T>(s: State<T>, t: Tid, pick: Tid)
    requires s.mOk && t in s.w.waits
    ensures WorkerWoken(s, t, pick).state.mOk
  {
    if s.w.waits[t].TakeWait? { TakeAgain(s, t, pick); } else { MinAgain(s, t, pick); }
  }

  lemma StepOpen<T>(s: State<T>, step: Step<T>)
    requires Enabled(s, step) && s.mOk && !step.Terminate? && !step.WorkerExit?
    ensures Apply(s, step).state.mOk
  {
    match step {
      case ResumeClient(t, pick) => ClientOpen(s, t, pick);
      case ResumeWorker(t, pick) => WorkerOpen(s, t, pick);
      case Put(_, _, _, _) =>
      case Take(_, _) =>
      case _ =>
    }
  }

  // The terminator never waits for nothing: either a worker that has not left can run, or
  // the terminator itself can.
  lemma CannotStall<T>(s: State<T>, t: Tid)
    requires Inv(s) && TermServed(s) && t in s.c.waits && s.c.waits[t].TermWait?
    ensures t in s.c.woken || exists u :: u in s.threads - s.gone && (u in s.w.woken || FreeWorker(s, u))
  {
    if t in s.c.sleep {
      assert s.threads - s.gone == {} ==> s.gone == s.threads;
      var u :| u in s.threads - s.gone;
      assert u in s.w.woken || FreeWorker(s, u);
    }
  }

  // How many steps the workers can still make once the queue is dead.
  ghost function Rank<T>(s: State<T>): nat {
    |s.threads - s.gone| + |s.threads - s.gone - s.quit| + |s.w.waits.Keys|
  }

  ghost predicate WorkerStep<T>(step: Step<T>) {
    step.Take? || step.WaitMinSz? || step.WorkerExit? || step.ResumeWorker?
  }

  lemma Remove(a: set<Tid>, b: set<Tid>, t: Tid)
    requires t in a - b
    ensures |a - (b + {t})| == |a - b| - 1
  {
    assert a - (b + {t}) == (a - b) - {t};
  }

  lemma ExitRanks<T>(s: State<T>, t: Tid, status: bool)
    requires FreeWorker(s, t)
    ensures Rank(Exit(s, t, status)) < Rank(s)
  {
    var s1 := Exit(s, t, status);
    Remove(s.threads, s.gone, t);
    assert s1.threads - s1.gone - s1.quit == s.threads - s.gone - s.quit - {t};
    Smaller(s.threads - s.gone - s.quit, t);
  }

  lemma Smaller(a: set<Tid>, t: Tid)
    ensures |a - {t}| <= |a|
  {
    if t !in a {
      assert a - {t} == a;
    }
  }

  lemma RefuseRanks<T>(s: State<T>, t: Tid)
    requires t in s.threads - s.gone - s.quit
    ensures Rank(Refuse(s, t).state) == Rank(s) - 1
  {
    Remove(s.threads - s.gone, s.quit, t);
  }

  // s1 is dead too, at least as near the end as s, and no worker fell asleep in between.
  ghost predicate Nearer<T>(s: State<T>, s1: State<T>) {
    !Live(s1) && s1.w.sleep <= s.w.sleep && Rank(s1) <= Rank(s)
  }

  lemma DeadTerm<T>(s: State<T>, t: Tid)
    requires WorkerInv(s) && !Live(s)
    ensures Nearer(s, TermLoop(s, t).state)
  {
    if s.exited >= |s.threads| {
      AllGone(s);
    }
  }

  lemma DeadClient<T>(s: State<T>, t: Tid, pick: Tid)
    requires WorkerInv(s) && t in s.c.waits && !Live(s)
    ensures Nearer(s, ClientWoken(s, t, pick).state)
  {
    if s.c.waits[t].TermWait? {
      TermAgain(s, t, pick);
      DeadTerm(s.(c := Leave(s.c, t)), t);
    } else {
      DeadWoken(s, t, pick);
    }
  }

  lemma DeadWorker<T>(s: State<T>, t: Tid, pick: Tid)
    requires WorkerInv(s) && t in s.w.woken && t in s.w.waits && !Live(s)
    ensures Nearer(s, WorkerWoken(s, t, pick).state) && Rank(WorkerWoken(s, t, pick).state) < Rank(s)
  {
    LeaveExact(s.w, t);
    if s.w.waits[t].TakeWait? { TakeAgain(s, t, pick); } else { MinAgain(s, t, pick); }
    RefuseRanks(s.(w := Leave(s.w, t)), t);
  }

  lemma DeadRefuse<T>(s: State<T>, t: Tid)
    requires !Live(s) && t in s.threads - s.gone - s.quit
    ensures var s1 := Refuse(s, t).state; Nearer(s, s1) && Rank(s1) < Rank(s)
  {
    RefuseRanks(s, t);
  }

  lemma DeadExit<T>(s: State<T>, t: Tid, status: bool)
    requires !Live(s) && FreeWorker(s, t)
    ensures var s1 := Exit(s, t, status); Nearer(s, s1) && Rank(s1) < Rank(s)
  {
    ExitRanks(s, t, status);
  }

  lemma DeadStart<T>(s: State<T>, t: Tid)
    requires WorkerInv(s) && !Live(s) && FreeClient(s, t)
    ensures Nearer(s, Apply(s, Terminate(t)).state)
  {
    if s.threads != {} { DeadTerm(s.(mOk := false), t); }
  }

  // Once the queue is dead, a worker step brings the end closer and no worker goes to sleep;
  // other steps neither help nor hurt, except that the last one resets the queue.
  lemma DeadStep<T>(s: State<T>, step: Step<T>)
    requires WorkerInv(s) && Enabled(s, step) && !Live(s) && !step.Start?
    ensures Nearer(s, Apply(s, step).state)
    ensures WorkerStep(step) ==> Rank(Apply(s, step).state) < Rank(s)
  {
    if WorkerStep(step) { DeadWorkerStep(s, step); } else { DeadClientStep(s, step); }
  }

  lemma DeadWorkerStep<T>(s: State<T>, step: Step<T>)
    requires WorkerInv(s) && Enabled(s, step) && !Live(s) && WorkerStep(step)
    ensures var s1 := Apply(s, step).state; Nearer(s, s1) && Rank(s1) < Rank(s)
  {
    match step {
      case Take(t, _) => DeadRefuse(s, t);
      case WaitMinSz(t, _) => DeadRefuse(s, t);
      case ResumeWorker(t, pick) => DeadWorker(s, t, pick);
      case WorkerExit(t, status) => DeadExit(s, t, status);
    }
  }

  lemma DeadClientStep<T>(s: State<T>, step: Step<T>)
    requires WorkerInv(s) && Enabled(s, step) && !Live(s) && !step.Start? && !WorkerStep(step)
    ensures Nearer(s, Apply(s, step).state)
  {
    match step {
      case ResumeClient(t, pick) => DeadClient(s, t, pick);
      case Terminate(t) => DeadStart(s, t);
      case Put(_, _, _, _) => assert Apply(s, step).state == s;
      case WaitIdle(_) => assert Apply(s, step).state == s;
      case Spurious(t) => DeadWake(s, t);
    }
  }

  lemma DeadWake<T>(s: State<T>, t: Tid)
    requires !Live(s) && t in s.c.sleep + s.w.sleep
    ensures Nearer(s, Wake(s, t))
  {
  }

  ghost function WorkerSteps<T>(steps: seq<Step<T>>): nat {
    if steps == [] then 0
    else WorkerSteps(steps[..|steps| - 1]) + (if WorkerStep(steps[|steps| - 1]) then 1 else 0)
  }

  // However a dead queue is run, its workers make at most Rank steps before they are all gone.
  lemma {:induction false} DeadRun<T>(p: Policy, s: State<T>, steps: seq<Step<T>>)
    requires WorkerInv(s) && Run(p, s, steps) && !Live(s)
    requires forall step | step in steps :: !step.Start?
    ensures WorkerInv(Exec(p, s, steps)) && !Live(Exec(p, s, steps))
    ensures WorkerSteps(steps) + Rank(Exec(p, s, steps)) <= Rank(s)
    decreases |steps|
  {
    if steps != [] {
      var most, last := steps[..|steps| - 1], steps[|steps| - 1];
      assert last in steps;
      DeadRun(p, s, most);
      DeadStep(Exec(p, s, most), last);
      StepWorkers(Exec(p, s, most), last);
    }
  }

  // When no worker step is left, the terminator has been woken, and getting the mutex back it
  // joins workers that have all called workerExit and reports whether every worker returned a good
  // status. It puts the queue in its initial state exactly when no other client is inside. What
  // was queued is still queued.
  // What the reset leaves behind.
  lemma ResetFresh<T>(s: State<T>)
    requires WorkerInv(s) && s.threads == s.gone && s.c.sleep + s.c.woken == s.c.waits.Keys
    ensures Reset(s) == Init<T>(s.high, s.low).(queue := s.queue, accepted := s.accepted, taken := s.taken,
                                                fates := s.fates, faulted := s.faulted)
            <==> s.c.waits == map[]
  {
    assert s.w.waits.Keys == {};
    assert s.w.sleep == {} && s.w.woken == {} && s.w.waits == map[];
    assert s.c.waits == map[] <==> s.c.waits.Keys == {};
  }

  lemma LastStep<T>(s: State<T>, t: Tid, pick: Tid)
    requires Inv(s) && TermServed(s) && t in s.c.waits && s.c.waits[t].TermWait? && Rank(s) == 0
    ensures t in s.c.woken && s.gone == s.threads
    ensures ClientWoken(s, t, pick).reply == Returns(s.failed == {})
    ensures ClientWoken(s, t, pick).state
            == Init<T>(s.high, s.low).(queue := s.queue, accepted := s.accepted, taken := s.taken,
                                       fates := s.fates, faulted := s.faulted)
            <==> s.c.waits.Keys == {t}
  {
    assert s.threads - s.gone == {};
    assert s.gone == s.threads;
    ClientLeaves(s, t);
    assert s.threads !! s.failed <==> s.failed == {};
    ResetFresh(s.(c := Leave(s.c, t)));
    TermAgain(s, t, pick);
  }

  // The reset keeps the client counter exact if and only if no other client was inside:
  // the counter is zeroed without looking at who waits.
  lemma ResetCountsIff<T>(s: State<T>, t: Tid, pick: Tid)
    requires Exact(s.c) && t in s.c.woken && s.c.waits[t].TermWait? && s.exited >= |s.threads|
    ensures Exact(ClientWoken(s, t, pick).state.c) <==> s.c.waits.Keys == {t}
  {
    LeaveExact(s.c, t);
    var c1 := ClientWoken(s, t, pick).state.c;
    assert c1.count == 0;
    assert s.c.waits.Keys - {t} == {} <==> |c1.waits.Keys| == 0;
  }

  // --- when the reset finds nobody else inside ---

  // Whoever calls setTerminateAndWait sees to it that no other client is inside.
  ghost predicate Polite<T>(s: State<T>, step: Step<T>) {
    step.Terminate? ==> s.c.waits == map[]
  }

  ghost predicate Alone<T>(s: State<T>) {
    forall t | t in s.c.waits && s.c.waits[t].TermWait? :: s.c.waits.Keys == {t} && !s.mOk
  }

  lemma ResetAlone<T>(s: State<T>, step: Step<T>)
    requires Alone(s) && Enabled(s, step) && Polite(s, step) && Resets(s, step)
    ensures s.c.waits.Keys <= {step.t}
  {
  }

  lemma ClientAlone<T>(s: State<T>, t: Tid, pick: Tid)
    requires Alone(s) && t in s.c.waits
    ensures Alone(ClientWoken(s, t, pick).state)
  {
    var s1 := s.(c := Leave(s.c, t));
    assert Alone(s1);
    if s.c.waits[t].TermWait? {
      assert s1.c.waits.Keys == {};
    }
  }

  lemma WorkerAlone<T>(s: State<T>, t: Tid, pick: Tid)
    requires Alone(s) && t in s.w.waits
    ensures Alone(WorkerWoken(s, t, pick).state)
  {
  }

  lemma StepAlone<T>(s: State<T>, step: Step<T>)
    requires Alone(s) && Enabled(s, step) && Polite(s, step)
    ensures Alone(Apply(s, step).state)
  {
    match step {
      case ResumeClient(t, pick) => ClientAlone(s, t, pick);
      case ResumeWorker(t, pick) => WorkerAlone(s, t, pick);
      case Put(_, _, _, _) =>
      case WaitIdle(_) =>
      case Take(_, _) =>
      case _ =>
    }
  }

  // Then, in every run, the reset finds nobody else inside either.
  lemma {:induction false} PoliteRun<T>(p: Policy, high: nat, low: nat, steps: seq<Step<T>>)
    requires Run(p, Init<T>(high, low), steps)
    requires forall i | 0 <= i < |steps| ::
               Run(p, Init<T>(high, low), steps[..i]) && Polite(Exec(p, Init<T>(high, low), steps[..i]), steps[i])
    ensures CleanRun(p, Init<T>(high, low), steps) && Alone(Exec(p, Init<T>(high, low), steps))
    decreases |steps|
  {
    if steps != [] {
      var n := |steps| - 1;
      var most := steps[..n];
      forall i | 0 <= i < n
        ensures Run(p, Init<T>(high, low), most[..i]) && Polite(Exec(p, Init<T>(high, low), most[..i]), most[i])
      {
        assert most[..i] == steps[..i] && most[i] == steps[i];
      }
      PoliteRun(p, high, low, most);
      PoliteStep(Exec(p, Init<T>(high, low), most), steps[n]);
    }
  }

  lemma PoliteStep<T>(s: State<T>, step: Step<T>)
    requires Alone(s) && Enabled(s, step) && Polite(s, step)
    ensures Clean(s, step) && Alone(Apply(s, step).state)
  {
    if Resets(s, step) { ResetAlone(s, step); }
    StepAlone(s, step);
  }
}
