// What the calls on the work queue answer, and what they hand over.
module WorkQueueReplies {
  import opened History
  import opened CondVar
  import opened WorkQueueSpec
  import opened WorkQueueInvariants
  import Fifo = WorkQueueFifo
  import Runs = WorkQueueRuns

  // --- what one step hands over ---

  // Only an answer to take says that an item left for a worker: it is the oldest of those queued, and
  // comes with their number.
  ghost predicate TookFront<T>(s: State<T>, r: Result<T>) {
    match r.reply
    case Took(x, n) =>
      s.queue != [] && n == |s.queue| && r.state.taken == s.taken + [x] && [x] + r.state.queue == s.queue
    case _ => r.state.taken == s.taken
  }

  lemma TakeTook<T>(s: State<T>, t: Tid, pick: Tid)
    ensures TookFront(s, TakeLoop(s, t, pick))
  {
  }

  lemma WokenTook<T>(s: State<T>, t: Tid, pick: Tid)
    requires t in s.w.waits
    ensures TookFront(s, WorkerWoken(s, t, pick))
  {
    var s1 := s.(w := Leave(s.w, t));
    match s.w.waits[t] {
      case TakeWait =>
        TakeAgain(s, t, pick);
        TakeTook(s1, t, pick);
      case MinWait(_) => MinAgain(s, t, pick);
    }
  }

  lemma ClientTook<T>(s: State<T>, t: Tid, pick: Tid)
    requires t in s.c.waits
    ensures ClientWoken(s, t, pick).state.taken == s.taken && !ClientWoken(s, t, pick).reply.Took?
  {
    match s.c.waits[t] {
      case PutWait(_, _) => PutAgain(s, t, pick);
      case IdleWait => IdleAgain(s, t, pick);
      case TermWait => TermAgain(s, t, pick);
    }
  }

  lemma StepTook<T>(s: State<T>, step: Step<T>)
    requires Enabled(s, step)
    ensures TookFront(s, Apply(s, step))
  {
    match step {
      case Take(t, pick) =>
        if Live(s) { TakeTook(s, t, pick); }
      case ResumeWorker(t, pick) => WokenTook(s, t, pick);
      case ResumeClient(t, pick) => ClientTook(s, t, pick);
      case _ => OtherTook(s, step);
    }
  }

  lemma OtherTook<T>(s: State<T>, step: Step<T>)
    requires Enabled(s, step) && !step.Take? && !step.ResumeWorker? && !step.ResumeClient?
    ensures Apply(s, step).state.taken == s.taken && !Apply(s, step).reply.Took?
  {
  }

  // The item that a step of put is about.
  ghost function PutItem<T>(s: State<T>, step: Step<T>): seq<T> {
    match step
    case Put(_, item, _, _) => [item]
    case ResumeClient(t, _) => if t in s.c.waits && s.c.waits[t].PutWait? then [s.c.waits[t].item] else []
    case _ => []
  }

  // The items that a step says are accepted: that of a put which answers true.
  ghost function Given<T>(s: State<T>, step: Step<T>): seq<T>
    requires Enabled(s, step)
  {
    if Apply(s, step).reply == Returns(true) then PutItem(s, step) else []
  }

  lemma PutGave<T>(s: State<T>, t: Tid, item: T, flush: bool, pick: Tid)
    ensures var r := PutLoop(s, t, item, flush, pick);
            && r.reply in {Asleep, Returns(true)}
            && (r.reply == Asleep <==> s.high > 0 && |s.queue| >= s.high)
            && (r.reply == Asleep ==> r.state.accepted == s.accepted && r.state.queue == s.queue
                                      && t in r.state.c.sleep && t in r.state.c.waits
                                      && r.state.c.waits[t] == PutWait(item, flush))
            && (r.reply == Returns(true) ==> r.state.accepted == s.accepted + [item]
                                             && r.state.queue == (if flush then [] else s.queue) + [item])
  {
  }

  lemma ClientGave<T>(s: State<T>, t: Tid, pick: Tid)
    requires Enabled(s, ResumeClient(t, pick))
    ensures ClientWoken(s, t, pick).state.accepted == s.accepted + Given(s, ResumeClient(t, pick))
  {
    match s.c.waits[t] {
      case PutWait(item, flush) =>
        PutAgain(s, t, pick);
        PutGave(s.(c := Leave(s.c, t)), t, item, flush, pick);
      case IdleWait => IdleAgain(s, t, pick);
      case TermWait => TermAgain(s, t, pick);
    }
  }

  // What counts as accepted is just that.
  lemma StepGave<T>(s: State<T>, step: Step<T>)
    requires Enabled(s, step)
    ensures Apply(s, step).state.accepted == s.accepted + Given(s, step)
  {
    match step {
      case Put(t, item, flush, pick) => PutGave(s, t, item, flush, pick);
      case ResumeClient(t, pick) => ClientGave(s, t, pick);
      case _ => OtherGave(s, step);
    }
  }

  lemma OtherGave<T>(s: State<T>, step: Step<T>)
    requires Enabled(s, step) && !step.Put? && !step.ResumeClient?
    ensures Apply(s, step).state.accepted == s.accepted
  {
  }

  // --- over runs ---

  // The items that puts reported as accepted, in the order of the steps.
  ghost function AllGiven<T>(p: Policy, s: State<T>, steps: seq<Step<T>>): seq<T>
    requires Run(p, s, steps)
    decreases |steps|
  {
    if steps == [] then []
    else
      var most := steps[..|steps| - 1];
      AllGiven(p, s, most) + Given(Exec(p, s, most), steps[|steps| - 1])
  }

  // The items that takes returned.
  ghost function AllTook<T>(p: Policy, s: State<T>, steps: seq<Step<T>>): seq<T>
    requires Run(p, s, steps)
    decreases |steps|
  {
    if steps == [] then []
    else
      var most := steps[..|steps| - 1];
      var reply := Apply(Exec(p, s, most), steps[|steps| - 1]).reply;
      AllTook(p, s, most) + (if reply.Took? then [reply.item] else [])
  }

  lemma {:induction false} RunHandsOver<T>(p: Policy, s: State<T>, steps: seq<Step<T>>)
    requires Run(p, s, steps)
    ensures Exec(p, s, steps).accepted == s.accepted + AllGiven(p, s, steps)
    ensures Exec(p, s, steps).taken == s.taken + AllTook(p, s, steps)
    decreases |steps|
  {
    if steps != [] {
      var n := |steps| - 1;
      RunHandsOver(p, s, steps[..n]);
      StepGave(Exec(p, s, steps[..n]), steps[n]);
      StepTook(Exec(p, s, steps[..n]), steps[n]);
    }
  }

  // In every run, what the takes returned is what the puts gave, in order, less what flushes dropped
  // and what is still queued.
  lemma HandedOver<T>(p: Policy, high: nat, low: nat, steps: seq<Step<T>>)
    requires Run(p, Init<T>(high, low), steps)
    ensures var s, given := Exec(p, Init<T>(high, low), steps), AllGiven(p, Init<T>(high, low), steps);
            && |s.fates| <= |given|
            && AllTook(p, Init<T>(high, low), steps) == Keep(given, s.fates, Delivered)
            && given[|s.fates|..] == s.queue
            && (!p.flush ==> given == AllTook(p, Init<T>(high, low), steps) + s.queue)
  {
    RunHandsOver(p, Init<T>(high, low), steps);
    Runs.EveryRun(p, high, low, steps);
    var s := Exec(p, Init<T>(high, low), steps);
    FifoHands(s, AllGiven(p, Init<T>(high, low), steps), AllTook(p, Init<T>(high, low), steps));
    if !p.flush { Runs.Split(s); }
  }

  lemma FifoHands<T>(s: State<T>, given: seq<T>, took: seq<T>)
    requires Fifo.Fifo(s) && s.accepted == [] + given && s.taken == [] + took
    ensures s.accepted == given && s.taken == took
    ensures |s.fates| <= |given| && took == Keep(given, s.fates, Delivered) && given[|s.fates|..] == s.queue
  {
    assert [] + given == given && [] + took == took;
  }

  // --- the other answers ---

  // put is refused exactly by a queue that is shut or has no workers, sleeps exactly on a full one,
  // and otherwise leaves its item last in the queue, alone there if it flushes.
  lemma PutAnswers<T>(s: State<T>, t: Tid, item: T, flush: bool, pick: Tid)
    requires Enabled(s, Put(t, item, flush, pick))
    ensures var r, full := Apply(s, Put(t, item, flush, pick)), s.high > 0 && |s.queue| >= s.high;
            var ok := s.mOk && s.exited == 0 && s.threads != {};
            && (r.reply == Returns(false) <==> !ok)
            && (r.reply == Asleep <==> ok && full)
            && (r.reply == Returns(true) <==> ok && !full)
            && r.state.queue == if r.reply != Returns(true) then s.queue else if flush then [item] else s.queue + [item]
  {
    PutGave(s, t, item, flush, pick);
  }

  // The answer of waitIdle.
  ghost predicate IdleTold<T>(s: State<T>, reply: Reply<T>) {
    var ok, idle := s.mOk && s.exited == 0 && s.threads != {}, s.queue == [] && |s.w.waits.Keys| == |s.threads|;
    && (reply == Returns(false) <==> !ok)
    && (reply == Returns(true) <==> ok && idle)
    && (reply == Asleep <==> ok && !idle)
  }

  lemma IdleTells<T>(s: State<T>, t: Tid)
    requires Exact(s.w)
    ensures IdleTold(s, IdleLoop(s, t).reply)
  {
  }

  // In every run waitIdle answers true exactly if the queue is empty and all workers wait, and false
  // exactly if the queue is shut.
  lemma IdleAnswers<T>(p: Policy, high: nat, low: nat, steps: seq<Step<T>>, step: Step<T>)
    requires Run(p, Init<T>(high, low), steps) && Allowed(p, Exec(p, Init<T>(high, low), steps), step)
    requires var s := Exec(p, Init<T>(high, low), steps);
             step.WaitIdle? || (step.ResumeClient? && s.c.waits[step.t].IdleWait?)
    ensures var s := Exec(p, Init<T>(high, low), steps); IdleTold(s, Apply(s, step).reply)
  {
    Runs.EveryRun(p, high, low, steps);
    var s := Exec(p, Init<T>(high, low), steps);
    if step.ResumeClient? {
      IdleAgain(s, step.t, step.pick);
      IdleTells(s.(c := Leave(s.c, step.t)), step.t);
    } else {
      IdleTells(s, step.t);
    }
  }

  // The answer to a worker that waits for sz items.
  ghost predicate MinTold<T>(s: State<T>, sz: nat, reply: Reply<T>) {
    var ok := s.mOk && s.exited == 0 && s.threads != {};
    && (reply == Returns(false) <==> !ok)
    && (reply == Returns(true) <==> ok && |s.queue| >= sz)
    && (reply == Asleep <==> ok && |s.queue| < sz)
  }

  lemma MinAnswers<T>(s: State<T>, step: Step<T>)
    requires Enabled(s, step)
    requires step.WaitMinSz? || (step.ResumeWorker? && s.w.waits[step.t].MinWait?)
    ensures MinTold(s, if step.WaitMinSz? then step.sz else s.w.waits[step.t].sz, Apply(s, step).reply)
  {
    if step.ResumeWorker? { MinAgain(s, step.t, step.pick); }
  }

  // take is refused exactly by a queue that is shut, and sleeps exactly below the low mark.
  lemma TakeAnswers<T>(s: State<T>, step: Step<T>)
    requires Enabled(s, step)
    requires step.Take? || (step.ResumeWorker? && s.w.waits[step.t].TakeWait?)
    ensures var r, ok := Apply(s, step), s.mOk && s.exited == 0 && s.threads != {};
            && (r.reply == Returns(false) <==> !ok)
            && (r.reply == Asleep <==> ok && |s.queue| < s.low)
            && (r.reply.Took? <==> ok && |s.queue| >= s.low && s.queue != [])
  {
    if step.ResumeWorker? { TakeAgain(s, step.t, step.pick); }
  }

  // --- terminating ---

  // The workers whose thread functions returned a bad status since the queue was last reset.
  ghost function BadExits<T>(p: Policy, s: State<T>, steps: seq<Step<T>>): set<Tid>
    requires Run(p, s, steps)
    decreases |steps|
  {
    if steps == [] then {}
    else
      var most, step := steps[..|steps| - 1], steps[|steps| - 1];
      if Resets(Exec(p, s, most), step) then {}
      else BadExits(p, s, most) + (if step.WorkerExit? && !step.status then {step.t} else {})
  }

  lemma ClientFails<T>(s: State<T>, t: Tid, pick: Tid)
    requires t in s.c.waits
    ensures ClientWoken(s, t, pick).state.failed == if Resets(s, ResumeClient(t, pick)) then {} else s.failed
  {
    match s.c.waits[t] {
      case PutWait(_, _) => PutAgain(s, t, pick);
      case IdleWait => IdleAgain(s, t, pick);
      case TermWait => TermAgain(s, t, pick);
    }
  }

  lemma StepFails<T>(s: State<T>, step: Step<T>)
    requires Enabled(s, step)
    ensures Apply(s, step).state.failed
         == if Resets(s, step) then {} else s.failed + (if step.WorkerExit? && !step.status then {step.t} else {})
  {
    match step {
      case ResumeClient(t, pick) => ClientFails(s, t, pick);
      case ResumeWorker(t, pick) => WorkerFails(s, t, pick);
      case _ => OtherFails(s, step);
    }
  }

  lemma WorkerFails<T>(s: State<T>, t: Tid, pick: Tid)
    requires t in s.w.waits
    ensures WorkerWoken(s, t, pick).state.failed == s.failed
  {
    if s.w.waits[t].TakeWait? { TakeAgain(s, t, pick); } else { MinAgain(s, t, pick); }
  }

  lemma OtherFails<T>(s: State<T>, step: Step<T>)
    requires Enabled(s, step) && !step.ResumeClient? && !step.ResumeWorker?
    ensures Apply(s, step).state.failed
         == if Resets(s, step) then {} else s.failed + (if step.WorkerExit? && !step.status then {step.t} else {})
  {
  }

  lemma {:induction false} RunFails<T>(p: Policy, high: nat, low: nat, steps: seq<Step<T>>)
    requires Run(p, Init<T>(high, low), steps)
    ensures Exec(p, Init<T>(high, low), steps).failed == BadExits(p, Init<T>(high, low), steps)
    decreases |steps|
  {
    if steps != [] {
      var n := |steps| - 1;
      RunFails(p, high, low, steps[..n]);
      StepFails(Exec(p, Init<T>(high, low), steps[..n]), steps[n]);
    }
  }

  // In every run setTerminateAndWait answers false without workers, waits while one has yet to leave,
  // and in the end answers true exactly if all of them returned a good status.
  lemma TerminateAnswers<T>(p: Policy, high: nat, low: nat, steps: seq<Step<T>>, step: Step<T>)
    requires Run(p, Init<T>(high, low), steps) && Allowed(p, Exec(p, Init<T>(high, low), steps), step)
    requires var s := Exec(p, Init<T>(high, low), steps);
             step.Terminate? || (step.ResumeClient? && s.c.waits[step.t].TermWait?)
    ensures var s, bad := Exec(p, Init<T>(high, low), steps), BadExits(p, Init<T>(high, low), steps);
            Apply(s, step).reply
            == if step.Terminate? && s.threads == {} then Returns(false)
               else if s.gone != s.threads then Asleep
               else Returns(bad == {})
  {
    Runs.EveryRun(p, high, low, steps);
    RunFails(p, high, low, steps);
    var s := Exec(p, Init<T>(high, low), steps);
    TermTells(s, step);
  }

  lemma TermTells<T>(s: State<T>, step: Step<T>)
    requires WorkerInv(s) && Enabled(s, step)
    requires step.Terminate? || (step.ResumeClient? && s.c.waits[step.t].TermWait?)
    ensures Apply(s, step).reply
         == if step.Terminate? && s.threads == {} then Returns(false)
            else if s.gone != s.threads then Asleep
            else Returns(s.failed == {})
  {
    if step.ResumeClient? { TermAgain(s, step.t, step.pick); }
    if s.exited >= |s.threads| {
      AllGone(s);
      assert s.threads !! s.failed <==> s.failed == {};
    }
  }
}
