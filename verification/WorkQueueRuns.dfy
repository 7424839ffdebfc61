// The work queue over whole runs: what holds in every reachable state, and exactly which
// configurations can hang.
module WorkQueueRuns {
  import opened History
  import opened CondVar
  import opened WorkQueueSpec
  import opened WorkQueueInvariants
  import Fifo = WorkQueueFifo
  import Workers = WorkQueueWorkers
  import Clients = WorkQueueClients
  import Shutdown = WorkQueueShutdown

  // What holds in every run whatsoever.
  ghost predicate Sound<T>(p: Policy, s: State<T>) {
    && WorkerInv(s)
    && Fifo.Fifo(s)
    && (!p.flush ==> Dropped !in s.fates)
    && Clients.ClientKinds(p, s)
    && Workers.Needs(p, s) && Workers.Few(p, s) && Workers.Short(p, s)
    && (Workers.OneNeed(p) ==> Workers.WorkersServed(s, 0))
    && Clients.Quiet(s)
    && (s.low > s.high > 0 ==> Clients.Jammed(s))
  }

  // What holds besides as long as no reset happens under another client.
  ghost predicate Good<T>(p: Policy, s: State<T>) {
    && Sound(p, s)
    && ClientInv(s)
    && Shutdown.TermServed(s)
    && Clients.Barrier(s)
    && (Clients.Filling(p, s.high) ==> Clients.ProducersServed(s, 0))
  }

  lemma PutDrops<T>(s: State<T>, t: Tid, item: T, flush: bool, pick: Tid)
    requires Dropped !in s.fates && !flush
    ensures Dropped !in PutLoop(s, t, item, flush, pick).state.fates
  {
  }

  lemma StepDrops<T>(p: Policy, s: State<T>, step: Step<T>)
    requires Dropped !in s.fates && !p.flush && Clients.ClientKinds(p, s) && Allowed(p, s, step)
    ensures Dropped !in Apply(s, step).state.fates
  {
    match step {
      case Put(t, item, flush, pick) => PutDrops(s, t, item, flush, pick);
      case ResumeClient(t, pick) =>
        assert Clients.Kind(p, s.high, s.c.waits[t]);
        if s.c.waits[t].PutWait? {
          PutDrops(s.(c := Leave(s.c, t)), t, s.c.waits[t].item, s.c.waits[t].flush, pick);
        }
      case _ =>
    }
  }

  lemma StepConfig<T>(s: State<T>, step: Step<T>)
    requires Enabled(s, step)
    ensures Apply(s, step).state.low == s.low && Apply(s, step).state.high == s.high
  {
    match step {
      case Take(_, _) =>
      case Put(_, _, _, _) =>
      case ResumeClient(t, pick) =>
      case ResumeWorker(t, pick) =>
      case _ =>
    }
  }

  lemma StepSound<T>(p: Policy, s: State<T>, step: Step<T>)
    requires Sound(p, s) && Allowed(p, s, step)
    ensures Sound(p, Apply(s, step).state)
  {
    StepWorkers(s, step);
    Fifo.StepFifo(s, step);
    Clients.StepKinds(p, s, step);
    if !p.flush { StepDrops(p, s, step); }
    StepConfig(s, step);
    Workers.StepNeeds(p, s, step);
    Workers.StepFew(p, s, step);
    Workers.StepShort(p, s, step);
    if Workers.OneNeed(p) { Workers.StepServes(p, s, step); }
    Clients.StepQuiet(s, step);
    if s.low > s.high > 0 { Clients.StepJams(s, step); }
  }

  lemma StepGood<T>(p: Policy, s: State<T>, step: Step<T>)
    requires Good(p, s) && Allowed(p, s, step)
    ensures Good(p, Apply(s, step).state) <==> Clean(s, step)
  {
    StepSound(p, s, step);
    StepKeeps(s, step);
    Shutdown.StepTerm(s, step);
    Clients.StepBarrier(s, step);
    StepConfig(s, step);
    if Clients.Filling(p, s.high) { Clients.StepServes(p, s, step); }
  }

  lemma {:induction false} RunSound<T>(p: Policy, s: State<T>, steps: seq<Step<T>>)
    requires Sound(p, s) && Run(p, s, steps)
    ensures Sound(p, Exec(p, s, steps))
    decreases |steps|
  {
    if steps != [] {
      RunSound(p, s, steps[..|steps| - 1]);
      StepSound(p, Exec(p, s, steps[..|steps| - 1]), steps[|steps| - 1]);
    }
  }

  lemma {:induction false} RunConfig<T>(p: Policy, s: State<T>, steps: seq<Step<T>>)
    requires Run(p, s, steps)
    ensures Exec(p, s, steps).low == s.low && Exec(p, s, steps).high == s.high
    decreases |steps|
  {
    if steps != [] {
      RunConfig(p, s, steps[..|steps| - 1]);
      StepConfig(Exec(p, s, steps[..|steps| - 1]), steps[|steps| - 1]);
    }
  }

  // In every state that any number of clients and workers reach.
  lemma EveryRun<T>(p: Policy, high: nat, low: nat, steps: seq<Step<T>>)
    requires Run(p, Init<T>(high, low), steps)
    ensures var s := Exec(p, Init<T>(high, low), steps);
            s.high == high && s.low == low && Sound(p, s)
  {
    RunSound(p, Init<T>(high, low), steps);
    RunConfig(p, Init<T>(high, low), steps);
  }

  // Every state of the run is good.
  ghost predicate GoodRun<T>(p: Policy, s: State<T>, steps: seq<Step<T>>)
    requires Run(p, s, steps)
    decreases |steps|
  {
    Good(p, Exec(p, s, steps)) && (steps == [] || GoodRun(p, s, steps[..|steps| - 1]))
  }

  // In every state that any number of clients and workers reach, exactly as long as no reset
  // happens under another client.
  lemma {:induction false} GoodRunIff<T>(p: Policy, high: nat, low: nat, steps: seq<Step<T>>)
    requires Run(p, Init<T>(high, low), steps)
    ensures GoodRun(p, Init<T>(high, low), steps) <==> CleanRun(p, Init<T>(high, low), steps)
    decreases |steps|
  {
    if steps != [] {
      var most := steps[..|steps| - 1];
      GoodRunIff(p, high, low, most);
      if GoodRun(p, Init<T>(high, low), most) {
        StepGood(p, Exec(p, Init<T>(high, low), most), steps[|steps| - 1]);
      }
    }
  }

  // What is known of any run.
  lemma Reached<T>(p: Policy, high: nat, low: nat, steps: seq<Step<T>>)
    requires Run(p, Init<T>(high, low), steps)
    ensures var s := Exec(p, Init<T>(high, low), steps);
            s.high == high && s.low == low && Sound(p, s) && (!p.crowd ==> Good(p, s))
  {
    EveryRun(p, high, low, steps);
    if !p.crowd {
      CleanPolicy(p, Init<T>(high, low), steps);
      GoodRunIff(p, high, low, steps);
    }
  }

  // No lost wakeup: while a worker sleeps un-woken, the queue is below what it waits for by all but
  // as many items as there are woken workers that have yet to get the mutex back.
  lemma WorkerNotForgotten<T>(p: Policy, high: nat, low: nat, steps: seq<Step<T>>, t: Tid)
    requires Workers.OneNeed(p) && Run(p, Init<T>(high, low), steps)
    ensures var s := Exec(p, Init<T>(high, low), steps);
            Live(s) && t in s.w.sleep ==>
              t in s.w.waits && |s.queue| < Workers.Need(low, s.w.waits[t]) + |s.w.woken|
  {
    EveryRun(p, high, low, steps);
    var s := Exec(p, Init<T>(high, low), steps);
    if t in s.w.sleep { assert t in s.w.waits.Keys; }
  }

  // In particular for takers.
  lemma TakerNotForgotten<T>(p: Policy, high: nat, low: nat, steps: seq<Step<T>>, t: Tid)
    requires p.minsz == 0 && Run(p, Init<T>(high, low), steps)
    ensures var s := Exec(p, Init<T>(high, low), steps);
            Live(s) && t in s.w.sleep ==> |s.queue| <= low - 1 + |s.w.woken|
  {
    WorkerNotForgotten(p, high, low, steps, t);
    EveryRun(p, high, low, steps);
  }

  // Without flush and waitIdle, while a producer sleeps un-woken, the items queued and those that
  // woken producers are about to queue fill the queue.
  lemma ProducerNotForgotten<T>(p: Policy, high: nat, low: nat, steps: seq<Step<T>>, t: Tid)
    requires !p.flush && !p.idle && Run(p, Init<T>(high, low), steps) && CleanRun(p, Init<T>(high, low), steps)
    ensures var s := Exec(p, Init<T>(high, low), steps);
            Live(s) && t in s.c.sleep ==> |s.queue| + |s.c.woken| >= high
  {
    EveryRun(p, high, low, steps);
    GoodRunIff(p, high, low, steps);
  }

  // No client, whether in waitIdle or in put, sleeps un-woken on an empty queue whose workers all wait.
  lemma IdleNotForgotten<T>(p: Policy, high: nat, low: nat, steps: seq<Step<T>>)
    requires Run(p, Init<T>(high, low), steps) && CleanRun(p, Init<T>(high, low), steps)
    ensures var s := Exec(p, Init<T>(high, low), steps);
            Live(s) && s.queue == [] && s.w.count == |s.threads| ==> s.c.sleep == {}
  {
    GoodRunIff(p, high, low, steps);
  }

  // Workers that do not compete for different numbers of items, none of them more than the high
  // mark: a sleeping worker and a sleeping producer always have a wakeup on its way to one of their
  // kind.
  lemma NeverBothAsleep<T>(p: Policy, high: nat, low: nat, steps: seq<Step<T>>, w: Tid, c: Tid)
    requires Workers.OneNeed(p) && !p.flush && !p.idle && Workers.MaxNeed(p, low) <= high
    requires Run(p, Init<T>(high, low), steps) && CleanRun(p, Init<T>(high, low), steps)
    ensures var s := Exec(p, Init<T>(high, low), steps);
            Live(s) && w in s.w.sleep && c in s.c.sleep ==> s.w.woken != {} || s.c.woken != {}
  {
    EveryRun(p, high, low, steps);
    WorkerNotForgotten(p, high, low, steps, w);
    ProducerNotForgotten(p, high, low, steps, c);
  }

  ghost predicate Faults<T>(p: Policy, high: nat, low: nat, steps: seq<Step<T>>) {
    Run(p, Init<T>(high, low), steps) && Exec(p, Init<T>(high, low), steps).faulted
  }

  lemma OneStarted<T>(p: Policy, high: nat, low: nat) returns (steps: seq<Step<T>>)
    ensures Run(p, Init<T>(high, low), steps)
    ensures Calm(Exec(p, Init<T>(high, low), steps), high, low, 0)
  {
    Single(p, Init<T>(high, low), [], Start({0}));
    steps := [] + [Start({0})];
  }

  lemma FaultRun<T>(p: Policy, high: nat) returns (steps: seq<Step<T>>)
    ensures Faults(p, high, 0, steps)
  {
    steps := OneStarted(p, high, 0);
    Single(p, Init<T>(high, 0), steps, Take(0, 0));
    steps := steps + [Take(0, 0)];
  }

  // A take reads the front of an empty queue in some run if and only if the low mark is 0.
  lemma FaultIff<T>(p: Policy, high: nat, low: nat)
    ensures low == 0 <==> exists steps: seq<Step<T>> :: Faults(p, high, low, steps)
  {
    if low == 0 {
      var steps: seq<Step<T>> := FaultRun(p, high);
      assert Faults(p, high, low, steps);
    }
    forall steps: seq<Step<T>> | Faults(p, high, low, steps) ensures low == 0 {
      EveryRun(p, high, low, steps);
    }
  }

  lemma Split<T>(s: State<T>)
    requires Fifo.Fifo(s) && Dropped !in s.fates
    ensures s.accepted == s.taken + s.queue
  {
    var k := |s.fates|;
    assert s.accepted == s.accepted[..k] + s.accepted[k..];
    forall i | 0 <= i < |s.fates| ensures s.fates[i] == Delivered {
      assert s.fates[i] in s.fates;
    }
    KeepAll(s.accepted, s.fates, Delivered);
  }

  // Without flush, take returns what put accepted, in order, and the rest is queued.
  lemma FirstInFirstOut<T>(p: Policy, high: nat, low: nat, steps: seq<Step<T>>)
    requires !p.flush && Run(p, Init<T>(high, low), steps)
    ensures var s := Exec(p, Init<T>(high, low), steps);
            s.accepted == s.taken + s.queue && (high > 0 ==> |s.queue| <= high)
  {
    EveryRun(p, high, low, steps);
    Split(Exec(p, Init<T>(high, low), steps));
  }

  // With flush, every accepted item was taken, dropped by a flush, or is still queued.
  lemma NothingLost<T>(p: Policy, high: nat, low: nat, steps: seq<Step<T>>)
    requires Run(p, Init<T>(high, low), steps)
    ensures var s := Exec(p, Init<T>(high, low), steps);
            && |s.fates| <= |s.accepted|
            && s.taken == Keep(s.accepted, s.fates, Delivered)
            && multiset(s.accepted)
               == multiset(s.taken) + multiset(Keep(s.accepted, s.fates, Dropped)) + multiset(s.queue)
  {
    EveryRun(p, high, low, steps);
    var s := Exec(p, Init<T>(high, low), steps);
    KeptOrQueued(s.accepted, s.fates);
    assert Fifo.Fifo(s);
  }

  lemma KeptOrQueued<T>(all: seq<T>, fates: seq<Fate>)
    requires |fates| <= |all|
    ensures multiset(all) == multiset(Keep(all, fates, Delivered)) + multiset(Keep(all, fates, Dropped))
                             + multiset(all[|fates|..])
  {
    var left, rest := all[..|fates|], all[|fates|..];
    assert all == left + rest;
    KeepPrefix(left, rest, fates, Delivered);
    KeepPrefix(left, rest, fates, Dropped);
    KeepPartition(left, fates);
  }

  // --- can the queue hang? ---

  // Every worker sleeps, some client sleeps, and no wakeup is on its way to anybody.
  ghost predicate Stalled<T>(s: State<T>) {
    && Live(s)
    && s.w.sleep == s.threads
    && s.c.sleep != {}
    && s.c.woken == {}
  }

  // Producer t is among those who sleep.
  ghost predicate Stranded<T>(s: State<T>, t: Tid) {
    Stalled(s) && t in s.c.sleep && t in s.c.waits && s.c.waits[t].PutWait?
  }

  // Runs from the start that lead there.
  ghost predicate Hangs<T>(p: Policy, high: nat, low: nat, steps: seq<Step<T>>) {
    Run(p, Init<T>(high, low), steps) && Stalled(Exec(p, Init<T>(high, low), steps))
  }

  ghost predicate Strands<T>(p: Policy, high: nat, low: nat, steps: seq<Step<T>>, t: Tid) {
    Run(p, Init<T>(high, low), steps) && Stranded(Exec(p, Init<T>(high, low), steps), t)
  }

  // Workers may sleep on a queue that is not empty, and then so does whoever waits for it to be
  // idle, a producer that finds it full, or is passed over for another client, and anybody once
  // a reset under another client has spoilt the counter.
  predicate CanStall(p: Policy, high: nat, low: nat) {
    && Workers.MaxNeed(p, low) >= 2
    && (p.crowd || p.idle || (high > 0 && (Workers.MaxNeed(p, low) > high || p.flush)))
  }

  // The producer is left behind by a full queue that is not enough for the workers, by somebody
  // else's flush, by waitIdle taking its signal, or by a counter that misses it.
  predicate CanStrand(p: Policy, high: nat, low: nat) {
    && Workers.MaxNeed(p, low) >= 2 && high > 0
    && (p.crowd || p.idle || p.flush || Workers.MaxNeed(p, low) > high)
  }

  lemma NoStall<T>(p: Policy, s: State<T>)
    requires Sound(p, s) && (!p.crowd ==> Good(p, s)) && Stalled(s)
    ensures CanStall(p, s.high, s.low)
  {
    assert s.queue != [];
    if !p.crowd {
      var c :| c in s.c.sleep;
      assert c in s.c.waits.Keys;
      assert Clients.Kind(p, s.high, s.c.waits[c]);
      assert !s.c.waits[c].TermWait?;
    }
  }

  lemma Single<T>(p: Policy, s: State<T>, a: seq<Step<T>>, step: Step<T>)
    requires Run(p, s, a) && Allowed(p, Exec(p, s, a), step)
    ensures Run(p, s, a + [step]) && Exec(p, s, a + [step]) == Apply(Exec(p, s, a), step).state
  {
    assert (a + [step])[..|a|] == a;
  }

  // One started worker, n items queued, nobody waiting.
  ghost predicate Calm<T>(s: State<T>, high: nat, low: nat, n: nat) {
    && s.high == high && s.low == low
    && s.mOk && s.exited == 0 && s.threads == {0} && s.quit == {} && s.gone == {}
    && |s.queue| == n
    && s.c == Nobody() && s.w == Nobody()
  }

  lemma {:induction false} Fill<T>(p: Policy, high: nat, low: nat, n: nat, x: T) returns (steps: seq<Step<T>>)
    requires high > 0 ==> n <= high
    ensures Run(p, Init<T>(high, low), steps) && Calm(Exec(p, Init<T>(high, low), steps), high, low, n)
  {
    if n == 0 {
      steps := OneStarted(p, high, low);
    } else {
      steps := Fill(p, high, low, n - 1, x);
      Single(p, Init<T>(high, low), steps, Put(1, x, false, 0));
      steps := steps + [Put(1, x, false, 0)];
    }
  }

  // The call in which worker 0 goes to sleep on fewer than MaxNeed items.
  ghost function Block<T>(p: Policy, low: nat, pick: Tid): Step<T> {
    if p.minsz > low then WaitMinSz(0, p.minsz) else Take(0, pick)
  }

  // Worker 0 goes to sleep and nobody is told.
  lemma Blocks<T>(p: Policy, high: nat, low: nat, steps: seq<Step<T>>, pick: Tid) returns (steps1: seq<Step<T>>)
    requires Run(p, Init<T>(high, low), steps)
    requires var s := Exec(p, Init<T>(high, low), steps);
             && Live(s) && s.low == low && s.threads == {0} && s.quit == {} && s.gone == {}
             && s.w == Nobody() && pick in s.c.sleep && s.c.woken == {}
             && 0 < |s.queue| < Workers.MaxNeed(p, low)
    ensures Run(p, Init<T>(high, low), steps1)
    ensures Stalled(Exec(p, Init<T>(high, low), steps1))
    ensures Exec(p, Init<T>(high, low), steps1).c == Exec(p, Init<T>(high, low), steps).c
  {
    Single(p, Init<T>(high, low), steps, Block(p, low, pick));
    steps1 := steps + [Block(p, low, pick)];
  }

  lemma StallIdle<T>(p: Policy, high: nat, low: nat, x: T) returns (steps: seq<Step<T>>)
    requires Workers.MaxNeed(p, low) >= 2 && p.idle
    ensures Run(p, Init<T>(high, low), steps) && Stalled(Exec(p, Init<T>(high, low), steps))
  {
    steps := Fill(p, high, low, 1, x);
    Single(p, Init<T>(high, low), steps, WaitIdle(2));
    steps := Blocks(p, high, low, steps + [WaitIdle(2)], 2);
  }

  lemma StallFull<T>(p: Policy, high: nat, low: nat, x: T) returns (steps: seq<Step<T>>)
    requires Workers.MaxNeed(p, low) > high > 0
    ensures Run(p, Init<T>(high, low), steps) && Stranded(Exec(p, Init<T>(high, low), steps), 2)
  {
    steps := Fill(p, high, low, high, x);
    Single(p, Init<T>(high, low), steps, Put(2, x, false, 0));
    steps := Blocks(p, high, low, steps + [Put(2, x, false, 0)], 2);
  }

  // n items queued and nobody inside, except as c and w say.
  ghost predicate At<T>(s: State<T>, n: nat, threads: set<Tid>, c: Cond<ClientWait<T>>, w: Cond<WorkerWait>) {
    && s.mOk && s.exited == 0 && s.threads == threads && s.quit == {} && s.gone == {}
    && |s.queue| == n && s.c == c && s.w == w
  }

  // A producer that would flush, and one that would not, sleep on the full queue.
  ghost function FlushAndPut<T>(x: T): Cond<ClientWait<T>> {
    Cond({2, 3}, {}, map[2 := PutWait(x, true), 3 := PutWait(x, false)], 2)
  }

  lemma TwoProducers<T>(p: Policy, high: nat, low: nat, x: T) returns (steps: seq<Step<T>>)
    requires high > 0 && p.flush
    ensures Run(p, Init<T>(high, low), steps)
    ensures At(Exec(p, Init<T>(high, low), steps), high, {0}, FlushAndPut(x), Nobody())
  {
    var init := Init<T>(high, low);
    steps := Fill(p, high, low, high, x);
    Single(p, init, steps, Put(2, x, true, 0));
    steps := steps + [Put(2, x, true, 0)];
    Single(p, init, steps, Put(3, x, false, 0));
    steps := steps + [Put(3, x, false, 0)];
    assert Exec(p, init, steps).c == FlushAndPut(x);
  }

  lemma FlushWaits<T>(p: Policy, high: nat, low: nat, x: T) returns (steps: seq<Step<T>>)
    requires 2 <= high && low <= high && p.flush
    ensures Run(p, Init<T>(high, low), steps)
    ensures At(Exec(p, Init<T>(high, low), steps), high - 1, {0},
               Cond({3}, {2}, FlushAndPut(x).waits, 2), Nobody())
  {
    var init := Init<T>(high, low);
    steps := TwoProducers(p, high, low, x);
    RunConfig(p, init, steps);
    Single(p, init, steps, Take(0, 2));
    steps := steps + [Take(0, 2)];
    assert Exec(p, init, steps).c.sleep == {3};
  }

  lemma StallFlush<T>(p: Policy, high: nat, low: nat, x: T) returns (steps: seq<Step<T>>)
    requires 2 <= Workers.MaxNeed(p, low) <= high && p.flush
    ensures Run(p, Init<T>(high, low), steps) && Stranded(Exec(p, Init<T>(high, low), steps), 3)
  {
    steps := FlushWaits(p, high, low, x);
    RunConfig(p, Init<T>(high, low), steps);
    Single(p, Init<T>(high, low), steps, ResumeClient(2, 0));
    steps := Blocks(p, high, low, steps + [ResumeClient(2, 0)], 3);
  }

  // Producer 2 and waitIdle caller 3 sleep.
  ghost function PutAndIdle<T>(x: T): Cond<ClientWait<T>> {
    Cond({2, 3}, {}, map[2 := PutWait(x, false), 3 := IdleWait], 2)
  }

  lemma FullAndIdle<T>(p: Policy, high: nat, low: nat, x: T) returns (steps: seq<Step<T>>)
    requires high > 0 && p.idle
    ensures Run(p, Init<T>(high, low), steps)
    ensures At(Exec(p, Init<T>(high, low), steps), high, {0}, PutAndIdle(x), Nobody())
  {
    var init := Init<T>(high, low);
    steps := Fill(p, high, low, high, x);
    Single(p, init, steps, Put(2, x, false, 0));
    steps := steps + [Put(2, x, false, 0)];
    assert Exec(p, init, steps).c == Cond({2}, {}, map[2 := PutWait(x, false)], 1);
    Single(p, init, steps, WaitIdle(3));
    steps := steps + [WaitIdle(3)];
    assert Exec(p, init, steps).c.waits == PutAndIdle(x).waits;
  }

  // A take signals the waitIdle caller, not the producer.
  lemma TakeWakesIdle<T>(s: State<T>, n: nat, x: T)
    requires At(s, n + 1, {0}, PutAndIdle(x), Nobody()) && n + 1 >= s.low
    ensures Enabled(s, Take(0, 3))
    ensures At(Apply(s, Take(0, 3)).state, n, {0}, Cond({2}, {3}, PutAndIdle(x).waits, 2), Nobody())
  {
  }

  // Who finds the queue not idle yet.
  lemma IdleWaitsOn<T>(s: State<T>, n: nat, x: T)
    requires At(s, n, {0}, Cond({2}, {3}, PutAndIdle(x).waits, 2), Nobody())
    ensures Enabled(s, ResumeClient(3, 0))
    ensures At(Apply(s, ResumeClient(3, 0)).state, n, {0}, PutAndIdle(x), Nobody())
  {
    IdleAgain(s, 3, 0);
    var c := Apply(s, ResumeClient(3, 0)).state.c;
    assert c.sleep == {2, 3} && c.woken == {} && c.waits == PutAndIdle(x).waits;
  }

  lemma IdleRobs<T>(p: Policy, high: nat, low: nat, n: nat, x: T, before: seq<Step<T>>) returns (steps: seq<Step<T>>)
    requires n + 1 >= low && Run(p, Init<T>(high, low), before)
    requires At(Exec(p, Init<T>(high, low), before), n + 1, {0}, PutAndIdle(x), Nobody())
    ensures Run(p, Init<T>(high, low), steps)
    ensures At(Exec(p, Init<T>(high, low), steps), n, {0}, PutAndIdle(x), Nobody())
  {
    var init := Init<T>(high, low);
    RunConfig(p, init, before);
    TakeWakesIdle(Exec(p, init, before), n, x);
    Single(p, init, before, Take(0, 3));
    steps := before + [Take(0, 3)];
    IdleWaitsOn(Exec(p, init, steps), n, x);
    Single(p, init, steps, ResumeClient(3, 0));
    steps := steps + [ResumeClient(3, 0)];
  }

  lemma {:induction false} IdleDrains<T>(p: Policy, high: nat, low: nat, n: nat, x: T) returns (steps: seq<Step<T>>)
    requires p.idle && 0 < n <= high && n + 1 >= low
    ensures Run(p, Init<T>(high, low), steps)
    ensures At(Exec(p, Init<T>(high, low), steps), n, {0}, PutAndIdle(x), Nobody())
    decreases high - n
  {
    if n == high {
      steps := FullAndIdle(p, high, low, x);
    } else {
      steps := IdleDrains(p, high, low, n + 1, x);
      steps := IdleRobs(p, high, low, n, x, steps);
    }
  }

  lemma StallRobbed<T>(p: Policy, high: nat, low: nat, x: T) returns (steps: seq<Step<T>>)
    requires 2 <= Workers.MaxNeed(p, low) <= high && p.idle
    ensures Run(p, Init<T>(high, low), steps) && Stranded(Exec(p, Init<T>(high, low), steps), 2)
  {
    steps := IdleDrains(p, high, low, Workers.MaxNeed(p, low) - 1, x);
    RunConfig(p, Init<T>(high, low), steps);
    steps := Blocks(p, high, low, steps, 2);
  }

  lemma StallRun<T>(p: Policy, high: nat, low: nat, x: T) returns (steps: seq<Step<T>>)
    requires CanStall(p, high, low)
    ensures Run(p, Init<T>(high, low), steps) && Stalled(Exec(p, Init<T>(high, low), steps))
  {
    if p.idle {
      steps := StallIdle(p, high, low, x);
    } else if p.crowd {
      steps := StallTerm(p, high, low, x);
    } else if Workers.MaxNeed(p, low) > high {
      steps := StallFull(p, high, low, x);
    } else {
      steps := StallFlush(p, high, low, x);
    }
  }

  // A configuration can hang exactly when CanStall says so. In particular, producers and
  // takers alone never hang when the low mark is at most the high one.
  lemma StallIff<T>(p: Policy, high: nat, low: nat, x: T)
    ensures CanStall(p, high, low) <==> exists steps: seq<Step<T>> :: Hangs(p, high, low, steps)
  {
    if CanStall(p, high, low) {
      var steps: seq<Step<T>> := StallRun(p, high, low, x);
      assert Hangs(p, high, low, steps);
    }
    forall steps: seq<Step<T>> | Hangs(p, high, low, steps)
      ensures CanStall(p, high, low)
    {
      Reached(p, high, low, steps);
      NoStall(p, Exec(p, Init<T>(high, low), steps));
    }
  }

  lemma StrandRun<T>(p: Policy, high: nat, low: nat, x: T) returns (steps: seq<Step<T>>, t: Tid)
    requires CanStrand(p, high, low)
    ensures Run(p, Init<T>(high, low), steps) && Stranded(Exec(p, Init<T>(high, low), steps), t)
  {
    t := 2;
    if Workers.MaxNeed(p, low) > high {
      steps := StallFull(p, high, low, x);
    } else if p.flush {
      steps := StallFlush(p, high, low, x);
      t := 3;
    } else if p.idle {
      steps := StallRobbed(p, high, low, x);
    } else {
      steps := CrowdStalls(p, high, low, x);
    }
  }

  // A producer can be left behind in such a state exactly when CanStrand says so.
  lemma StrandIff<T>(p: Policy, high: nat, low: nat, x: T)
    ensures CanStrand(p, high, low) <==> exists steps: seq<Step<T>>, t: Tid :: Strands(p, high, low, steps, t)
  {
    if CanStrand(p, high, low) {
      var steps: seq<Step<T>>, t := StrandRun(p, high, low, x);
      assert Strands(p, high, low, steps, t);
    }
    forall steps: seq<Step<T>>, t: Tid | Strands(p, high, low, steps, t)
      ensures CanStrand(p, high, low)
    {
      Reached(p, high, low, steps);
      NoStrand(p, Exec(p, Init<T>(high, low), steps), t);
    }
  }

  lemma NoStrand<T>(p: Policy, s: State<T>, t: Tid)
    requires Sound(p, s) && (!p.crowd ==> Good(p, s)) && Stranded(s, t)
    ensures CanStrand(p, s.high, s.low)
  {
    NoStall(p, s);
    assert Clients.Kind(p, s.high, s.c.waits[t]);
  }

  // --- a reset under another client ---

  // The reset zeroes the client counter under a producer that has yet to leave.
  lemma CrowdReset<T>(p: Policy, high: nat, low: nat, x: T) returns (steps: seq<Step<T>>)
    requires p.crowd && high > 0
    ensures Run(p, Init<T>(high, low), steps)
    ensures At(Exec(p, Init<T>(high, low), steps), high, {}, Cond({}, {2}, map[2 := PutWait(x, false)], 0), Nobody())
  {
    var init := Init<T>(high, low);
    steps := Fill(p, high, low, high, x);
    Single(p, init, steps, Put(2, x, false, 0));
    steps := steps + [Put(2, x, false, 0)];
    Single(p, init, steps, WorkerExit(0, true));
    steps := steps + [WorkerExit(0, true)];
    Single(p, init, steps, Terminate(3));
    steps := steps + [Terminate(3)];
  }

  // The counter wraps when it leaves.
  lemma CrowdWraps<T>(p: Policy, high: nat, low: nat, x: T) returns (steps: seq<Step<T>>)
    requires p.crowd && high > 0
    ensures Run(p, Init<T>(high, low), steps)
    ensures At(Exec(p, Init<T>(high, low), steps), high, {0}, Cond({}, {}, map[], 0xFFFF_FFFF), Nobody())
  {
    var init := Init<T>(high, low);
    steps := CrowdReset(p, high, low, x);
    Single(p, init, steps, ResumeClient(2, 0));
    steps := steps + [ResumeClient(2, 0)];
    assert Exec(p, init, steps).c.waits == map[];
    Single(p, init, steps, Start({0}));
    steps := steps + [Start({0})];
  }

  // A producer that sleeps on the full queue, and does not count.
  ghost function Uncounted<T>(x: T): Cond<ClientWait<T>> {
    Cond({2}, {}, map[2 := PutWait(x, false)], 0)
  }

  lemma CrowdForgets<T>(p: Policy, high: nat, low: nat, x: T) returns (steps: seq<Step<T>>)
    requires p.crowd && high > 0
    ensures Run(p, Init<T>(high, low), steps)
    ensures At(Exec(p, Init<T>(high, low), steps), high, {0}, Uncounted(x), Nobody())
  {
    var init := Init<T>(high, low);
    steps := CrowdWraps(p, high, low, x);
    RunConfig(p, init, steps);
    Single(p, init, steps, Put(2, x, false, 0));
    steps := steps + [Put(2, x, false, 0)];
  }

  // No take signals it.
  lemma {:induction false} CrowdDrains<T>(p: Policy, high: nat, low: nat, n: nat, x: T) returns (steps: seq<Step<T>>)
    requires p.crowd && high > 0 && n <= high && n + 1 >= low
    ensures Run(p, Init<T>(high, low), steps)
    ensures At(Exec(p, Init<T>(high, low), steps), n, {0}, Uncounted(x), Nobody())
    decreases high - n
  {
    if n == high {
      steps := CrowdForgets(p, high, low, x);
    } else {
      var init := Init<T>(high, low);
      steps := CrowdDrains(p, high, low, n + 1, x);
      RunConfig(p, init, steps);
      Single(p, init, steps, Take(0, 2));
      steps := steps + [Take(0, 2)];
    }
  }

  // Why setTerminateAndWait must find no other client inside: the next producer to sleep is
  // forgotten, although nothing else about the configuration allows it.
  lemma CrowdStalls<T>(p: Policy, high: nat, low: nat, x: T) returns (steps: seq<Step<T>>)
    requires 2 <= Workers.MaxNeed(p, low) <= high && p.crowd
    ensures Run(p, Init<T>(high, low), steps) && Stranded(Exec(p, Init<T>(high, low), steps), 2)
  {
    steps := CrowdDrains(p, high, low, Workers.MaxNeed(p, low) - 1, x);
    RunConfig(p, Init<T>(high, low), steps);
    steps := Blocks(p, high, low, steps, 2);
  }

  // Two terminators wait.
  ghost function Terminators<T>(): Cond<ClientWait<T>> {
    Cond({2, 3}, {}, map[2 := TermWait, 3 := TermWait], 2)
  }

  lemma TermSleeps<T>(s: State<T>, t: Tid)
    requires s.threads == {0} && s.gone == {} && s.exited == 0 && s.w == Nobody() && FreeClient(s, t)
    ensures Enabled(s, Terminate(t)) && !Resets(s, Terminate(t))
    ensures Apply(s, Terminate(t)).state == s.(mOk := false, c := Sleep(s.c, t, TermWait))
  {
  }

  lemma TwoTerminate<T>(p: Policy, high: nat, low: nat, n: nat, x: T) returns (steps: seq<Step<T>>)
    requires n <= 1
    ensures Run(p, Init<T>(high, low), steps)
    ensures var s := Exec(p, Init<T>(high, low), steps);
            s.threads == {0} && s.gone == {} && s.exited == 0 && s.w == Nobody() && |s.queue| == n
            && s.c == Terminators<T>()
  {
    var init := Init<T>(high, low);
    steps := Fill(p, high, low, n, x);
    TermSleeps(Exec(p, init, steps), 2);
    Single(p, init, steps, Terminate(2));
    steps := steps + [Terminate(2)];
    assert Exec(p, init, steps).c.waits == map[2 := TermWait];
    TermSleeps(Exec(p, init, steps), 3);
    Single(p, init, steps, Terminate(3));
    steps := steps + [Terminate(3)];
    assert Exec(p, init, steps).c == Terminators<T>();
  }

  // The only worker leaves.
  lemma OneLeaves<T>(p: Policy, high: nat, low: nat, n: nat, x: T) returns (steps: seq<Step<T>>)
    requires n <= 1
    ensures Run(p, Init<T>(high, low), steps)
    ensures var s := Exec(p, Init<T>(high, low), steps);
            s.threads == {0} && s.gone == {0} && s.exited == 1 && s.w == Nobody() && |s.queue| == n
            && s.c == Broadcast(Terminators<T>())
  {
    steps := TwoTerminate(p, high, low, n, x);
    Single(p, Init<T>(high, low), steps, WorkerExit(0, true));
    steps := steps + [WorkerExit(0, true)];
  }

  // The first of them resets the queue, and it is started again before the second looks.
  lemma TermResets<T>(s: State<T>)
    requires s.threads == {0} && s.gone == {0} && s.exited == 1 && s.w == Nobody()
    requires s.c == Broadcast(Terminators<T>())
    ensures Enabled(s, ResumeClient(2, 0))
    ensures At(Apply(s, ResumeClient(2, 0)).state, |s.queue|, {}, Cond({}, {3}, map[3 := TermWait], 0), Nobody())
  {
    TermAgain(s, 2, 0);
    assert Terminators<T>().waits - {2} == map[3 := TermWait];
  }

  lemma Restarted<T>(p: Policy, high: nat, low: nat, n: nat, x: T) returns (steps: seq<Step<T>>)
    requires n <= 1 && p.crowd
    ensures Run(p, Init<T>(high, low), steps)
    ensures At(Exec(p, Init<T>(high, low), steps), n, {0}, Cond({}, {3}, map[3 := TermWait], 0), Nobody())
  {
    var init := Init<T>(high, low);
    steps := OneLeaves(p, high, low, n, x);
    TermResets(Exec(p, init, steps));
    Single(p, init, steps, ResumeClient(2, 0));
    steps := steps + [ResumeClient(2, 0)];
    Single(p, init, steps, Start({0}));
    steps := steps + [Start({0})];
  }

  // It then waits for workers that nobody told to leave.
  lemma StallTerm<T>(p: Policy, high: nat, low: nat, x: T) returns (steps: seq<Step<T>>)
    requires Workers.MaxNeed(p, low) >= 2 && p.crowd
    ensures Run(p, Init<T>(high, low), steps) && Stalled(Exec(p, Init<T>(high, low), steps))
  {
    var init := Init<T>(high, low);
    steps := Restarted(p, high, low, 1, x);
    Single(p, init, steps, ResumeClient(3, 0));
    steps := steps + [ResumeClient(3, 0)];
    RunConfig(p, init, steps);
    steps := Blocks(p, high, low, steps, 3);
  }

  // A client sleeps un-woken on an empty queue whose workers all wait.
  ghost predicate Overlooks<T>(p: Policy, high: nat, low: nat, steps: seq<Step<T>>) {
    Run(p, Init<T>(high, low), steps) && !Clients.Barrier(Exec(p, Init<T>(high, low), steps))
  }

  lemma NoOverlook<T>(p: Policy, s: State<T>)
    requires Sound(p, s) && (!p.crowd ==> Good(p, s)) && !Clients.Barrier(s)
    ensures p.crowd && Workers.MaxNeed(p, s.low) > 0
  {
    assert s.w.waits.Keys != {};
    var t :| t in s.w.waits.Keys;
    assert Workers.Need(s.low, s.w.waits[t]) <= Workers.MaxNeed(p, s.low);
  }

  // Worker 0 goes to sleep on an empty queue.
  lemma BlocksEmpty<T>(p: Policy, s: State<T>)
    requires At(s, 0, {0}, Cond({}, {3}, map[3 := TermWait], 0), Nobody()) && Workers.MaxNeed(p, s.low) > 0
    ensures Allowed(p, s, Block(p, s.low, 0))
    ensures var s1 := Apply(s, Block(p, s.low, 0)).state;
            && Live(s1) && s1.queue == [] && s1.threads == {0} && s1.w.sleep == {0} && s1.w.waits.Keys == {0}
            && s1.c == s.c
  {
  }

  lemma TermOverlooks<T>(s: State<T>)
    requires Live(s) && s.queue == [] && s.threads == {0} && s.w.sleep == {0} && s.w.waits.Keys == {0}
    requires s.c == Cond({}, {3}, map[3 := TermWait], 0)
    ensures Enabled(s, ResumeClient(3, 0)) && !Clients.Barrier(Apply(s, ResumeClient(3, 0)).state)
  {
    TermAgain(s, 3, 0);
    assert 3 in Apply(s, ResumeClient(3, 0)).state.c.sleep;
  }

  lemma OverlookRun<T>(p: Policy, high: nat, low: nat, x: T) returns (steps: seq<Step<T>>)
    requires p.crowd && Workers.MaxNeed(p, low) > 0
    ensures Overlooks(p, high, low, steps)
  {
    var init := Init<T>(high, low);
    steps := Restarted(p, high, low, 0, x);
    RunConfig(p, init, steps);
    BlocksEmpty(p, Exec(p, init, steps));
    Single(p, init, steps, Block(p, low, 0));
    steps := steps + [Block(p, low, 0)];
    TermOverlooks(Exec(p, init, steps));
    Single(p, init, steps, ResumeClient(3, 0));
    steps := steps + [ResumeClient(3, 0)];
  }

  // That happens in some run if and only if a reset may happen under another client and there is
  // something for workers to wait for.
  lemma BarrierIff<T>(p: Policy, high: nat, low: nat, x: T)
    ensures p.crowd && Workers.MaxNeed(p, low) > 0 <==> exists steps: seq<Step<T>> :: Overlooks(p, high, low, steps)
  {
    if p.crowd && Workers.MaxNeed(p, low) > 0 {
      var steps: seq<Step<T>> := OverlookRun(p, high, low, x);
      assert Overlooks(p, high, low, steps);
    }
    forall steps: seq<Step<T>> | Overlooks(p, high, low, steps)
      ensures p.crowd && Workers.MaxNeed(p, low) > 0
    {
      Reached(p, high, low, steps);
      NoOverlook(p, Exec(p, Init<T>(high, low), steps));
    }
  }

  // --- who can be forgotten ---

  lemma TwoStarted<T>(p: Policy, high: nat, low: nat) returns (steps: seq<Step<T>>)
    requires p.many
    ensures Run(p, Init<T>(high, low), steps)
    ensures At(Exec(p, Init<T>(high, low), steps), 0, {0, 1}, Nobody(), Nobody())
  {
    Single(p, Init<T>(high, low), [], Start({0, 1}));
    steps := [] + [Start({0, 1})];
  }

  // What worker 0 waits for: an item to take, or where takers never wait, one to be there.
  ghost function Wait0(low: nat): WorkerWait { if low >= 1 then TakeWait else MinWait(1) }

  ghost function Call0<T>(low: nat): Step<T> { if low >= 1 then Take(0, 0) else WaitMinSz(0, 1) }

  // Worker 0 waits so, and worker 1 for one item to be there.
  ghost function Waits01(low: nat): map<Tid, WorkerWait> { map[0 := Wait0(low), 1 := MinWait(1)] }

  lemma FirstAsleep<T>(p: Policy, high: nat, low: nat) returns (steps: seq<Step<T>>)
    requires p.many && p.minsz > 0
    ensures Run(p, Init<T>(high, low), steps)
    ensures At(Exec(p, Init<T>(high, low), steps), 0, {0, 1}, Nobody(), Cond({0}, {}, map[0 := Wait0(low)], 1))
  {
    var init := Init<T>(high, low);
    steps := TwoStarted(p, high, low);
    RunConfig(p, init, steps);
    Single(p, init, steps, Call0<T>(low));
    steps := steps + [Call0<T>(low)];
  }

  lemma BothAsleep<T>(p: Policy, high: nat, low: nat) returns (steps: seq<Step<T>>)
    requires p.many && p.minsz > 0
    ensures Run(p, Init<T>(high, low), steps)
    ensures At(Exec(p, Init<T>(high, low), steps), 0, {0, 1}, Nobody(), Cond({0, 1}, {}, Waits01(low), 2))
  {
    var init := Init<T>(high, low);
    steps := FirstAsleep(p, high, low);
    RunConfig(p, init, steps);
    Single(p, init, steps, WaitMinSz(1, 1));
    steps := steps + [WaitMinSz(1, 1)];
    var s := Exec(p, init, steps);
    assert s.c == Nobody() && s.w.waits == Waits01(low);
  }

  // The worker that leaves one item where it is: that which waits for a size, if one item is enough
  // for the other, or else the taker.
  function Leaver(low: nat): Tid { if low <= 1 then 1 else 0 }

  // One item comes, and its signal goes to the one that leaves it there.
  lemma MixedSignal<T>(p: Policy, high: nat, low: nat, x: T) returns (steps: seq<Step<T>>)
    requires p.many && p.minsz > 0
    ensures Run(p, Init<T>(high, low), steps)
    ensures At(Exec(p, Init<T>(high, low), steps), 1, {0, 1}, Nobody(),
               Cond({0, 1} - {Leaver(low)}, {Leaver(low)}, Waits01(low), 2))
  {
    var init := Init<T>(high, low);
    steps := BothAsleep(p, high, low);
    RunConfig(p, init, steps);
    Single(p, init, steps, Put(2, x, false, Leaver(low)));
    steps := steps + [Put(2, x, false, Leaver(low))];
  }

  lemma MixedForgets<T>(p: Policy, high: nat, low: nat, x: T) returns (steps: seq<Step<T>>)
    requires p.many && p.minsz > 0
    ensures Run(p, Init<T>(high, low), steps)
    ensures var s, t := Exec(p, Init<T>(high, low), steps), 1 - Leaver(low);
            && Live(s) && |s.queue| == 1 && s.w.woken == {}
            && t in s.w.sleep && t in s.w.waits && Workers.Need(low, s.w.waits[t]) == 1
            && s.w.waits[t] == Waits01(low)[t]
  {
    var init := Init<T>(high, low);
    steps := MixedSignal(p, high, low, x);
    RunConfig(p, init, steps);
    Single(p, init, steps, ResumeWorker(Leaver(low), 0));
    steps := steps + [ResumeWorker(Leaver(low), 0)];
  }

  // Workers miss nothing in any run if and only if there is no waitminsz among several workers.
  lemma ServedIff<T>(p: Policy, high: nat, low: nat, x: T)
    ensures Workers.OneNeed(p) <==>
              forall steps: seq<Step<T>> | Run(p, Init<T>(high, low), steps) ::
                Workers.WorkersServed(Exec(p, Init<T>(high, low), steps), 0)
  {
    if Workers.OneNeed(p) {
      forall steps: seq<Step<T>> | Run(p, Init<T>(high, low), steps)
        ensures Workers.WorkersServed(Exec(p, Init<T>(high, low), steps), 0)
      {
        EveryRun(p, high, low, steps);
      }
    } else {
      var steps := MixedForgets(p, high, low, x);
      RunConfig(p, Init<T>(high, low), steps);
      assert !Workers.WorkersServed(Exec(p, Init<T>(high, low), steps), 0);
    }
  }

  // Producer t sleeps un-woken with more room in the queue than the woken clients can fill.
  ghost predicate Forgotten<T>(s: State<T>, t: Tid) {
    && Live(s) && t in s.c.sleep && t in s.c.waits && s.c.waits[t].PutWait?
    && |s.queue| + |s.c.woken| < s.high
  }

  ghost predicate Forgets<T>(p: Policy, high: nat, low: nat, steps: seq<Step<T>>, t: Tid) {
    Run(p, Init<T>(high, low), steps) && Forgotten(Exec(p, Init<T>(high, low), steps), t)
  }

  // Somebody can take from a full queue, and the signal goes to a waitIdle caller, to a put that
  // leaves the queue shorter than it was, or to nobody because the counter misses the producer.
  predicate CanForget(p: Policy, high: nat, low: nat) {
    high > 0 && low <= high && (p.crowd || p.idle || (p.flush && high >= 2))
  }

  lemma NoForget<T>(p: Policy, s: State<T>, t: Tid)
    requires Sound(p, s) && (!p.crowd ==> Good(p, s)) && Forgotten(s, t)
    ensures CanForget(p, s.high, s.low)
  {
    assert Clients.Kind(p, s.high, s.c.waits[t]);
    assert Clients.SomePut(s.c);
  }

  lemma ForgetRun<T>(p: Policy, high: nat, low: nat, x: T) returns (steps: seq<Step<T>>, t: Tid)
    requires CanForget(p, high, low)
    ensures Forgets(p, high, low, steps, t)
  {
    var init := Init<T>(high, low);
    if p.idle {
      steps := FullAndIdle(p, high, low, x);
      t := 2;
      steps := IdleRobs(p, high, low, high - 1, x, steps);
      RunConfig(p, init, steps);
    } else if p.crowd {
      steps := CrowdDrains(p, high, low, high - 1, x);
      t := 2;
      RunConfig(p, init, steps);
    } else {
      steps := FlushWaits(p, high, low, x);
      t := 3;
      RunConfig(p, init, steps);
      Single(p, init, steps, ResumeClient(2, 0));
      steps := steps + [ResumeClient(2, 0)];
    }
  }

  // A producer can be forgotten so in some run if and only if CanForget says so.
  lemma ProducersIff<T>(p: Policy, high: nat, low: nat, x: T)
    ensures CanForget(p, high, low) <==> exists steps: seq<Step<T>>, t: Tid :: Forgets(p, high, low, steps, t)
  {
    if CanForget(p, high, low) {
      var steps: seq<Step<T>>, t := ForgetRun(p, high, low, x);
      assert Forgets(p, high, low, steps, t);
    }
    forall steps: seq<Step<T>>, t: Tid | Forgets(p, high, low, steps, t) ensures CanForget(p, high, low) {
      Reached(p, high, low, steps);
      NoForget(p, Exec(p, Init<T>(high, low), steps), t);
    }
  }
}
