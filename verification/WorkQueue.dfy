// The work queue object. Every method is what one thread does while it holds the mutex, and
// is proved to make exactly the step that WorkQueueSpec describes. A wait in the middle of a
// call ends the method with Asleep; the Resume methods run what follows the wait.
module WorkQueue {
  import opened History
  import opened CondVar
  import Spec = WorkQueueSpec

  class WorkQueue<T> {
    const high: nat
    const low: nat
    var exited: nat
    var mOk: bool
    var threads: set<Tid>
    var queue: seq<T>
    var clientsWaiting: nat
    var workersWaiting: nat
    var tottasks: nat

    // Who waits on m_ccond and m_wcond, which workers are done, and what happened so far.
    ghost var ccond: Cond<Spec.ClientWait<T>>
    ghost var wcond: Cond<Spec.WorkerWait>
    ghost var quit: set<Tid>
    ghost var gone: set<Tid>
    ghost var accepted: seq<T>
    ghost var taken: seq<T>
    ghost var fates: seq<Fate>
    ghost var takes: nat
    ghost var faulted: bool

    // Thread functions that returned a null status, for pthread_join.
    var failed: set<Tid>

    ghost function State(): Spec.State<T>
      reads this
    {
      Spec.State(high, low, exited, mOk, threads, queue,
                 ccond.(count := clientsWaiting), wcond.(count := workersWaiting),
                 tottasks, quit, gone, failed, faulted, accepted, taken, fates, takes)
    }

    constructor (hi: nat, lo: nat)
      ensures State() == Spec.Init<T>(hi, lo)
    {
      high, low := hi, lo;
      exited, mOk, threads, queue, clientsWaiting, workersWaiting, tottasks := 0, true, {}, [], 0, 0, 0;
      ccond, wcond := Nobody(), Nobody();
      quit, gone, failed, accepted, taken, fates, takes, faulted := {}, {}, {}, [], [], [], 0, false;
    }

    predicate Ok()
      reads this
    {
      mOk && exited == 0 && threads != {}
    }

    // --- start ---

    // created lists the threads that pthread_create could create.
    method Start(created: seq<Tid>)
      requires Spec.Enabled(State(), Spec.Start(set t | t in created))
      modifies this`threads
      ensures State() == Spec.Apply(old(State()), Spec.Start(set t | t in created)).state
    {
      for i := 0 to |created|
        invariant threads == old(threads) + set t | t in created[..i]
      {
        threads := threads + {created[i]};
      }
      assert created[..|created|] == created;
    }

    // --- put ---

    method Flush()
      modifies this`queue, this`fates
      ensures State() == Spec.Flush(old(State()))
    {
      ghost var all, before := queue, fates;
      while queue != []
        invariant |queue| <= |all|
        invariant fates == before + seq(|all| - |queue|, _ => Dropped)
      {
        queue := queue[1..];
        fates := fates + [Dropped];
      }
    }

    // put from the test of its wait loop on.
    method PutLoop(t: Tid, item: T, flush: bool, ghost pick: Tid) returns (reply: Spec.Reply<T>)
      requires Ok()
      modifies this
      ensures Spec.Result(State(), reply) == Spec.PutLoop(old(State()), t, item, flush, pick)
    {
      if Ok() && high > 0 && |queue| >= high {
        clientsWaiting := Inc(clientsWaiting);
        ccond := Sleep(ccond, t, Spec.PutWait(item, flush));
        return Spec.Asleep;
      }
      if flush {
        Flush();
      }
      Push(item);
      if workersWaiting > 0 {
        wcond := Signal(wcond, pick);
      }
      return Spec.Returns(true);
    }

    method Push(item: T)
      modifies this`queue, this`accepted
      ensures State() == Spec.Push(old(State()), item)
    {
      queue, accepted := queue + [item], accepted + [item];
    }

    method Put(t: Tid, item: T, flush: bool, ghost pick: Tid) returns (reply: Spec.Reply<T>)
      requires Spec.Enabled(State(), Spec.Put(t, item, flush, pick))
      modifies this
      ensures Spec.Result(State(), reply) == Spec.Apply(old(State()), Spec.Put(t, item, flush, pick))
    {
      if !Ok() {
        return Spec.Returns(false);
      }
      reply := PutLoop(t, item, flush, pick);
    }

    method ResumePut(t: Tid, item: T, flush: bool, ghost pick: Tid) returns (reply: Spec.Reply<T>)
      requires Spec.Enabled(State(), Spec.ResumeClient(t, pick)) && ccond.waits[t] == Spec.PutWait(item, flush)
      modifies this
      ensures Spec.Result(State(), reply) == Spec.Apply(old(State()), Spec.ResumeClient(t, pick))
    {
      ccond := Leave(ccond, t);
      clientsWaiting := Dec(clientsWaiting);
      if !Ok() {
        return Spec.Returns(false);
      }
      reply := PutLoop(t, item, flush, pick);
    }

    // --- waitIdle ---

    method IdleLoop(t: Tid) returns (reply: Spec.Reply<T>)
      modifies this
      ensures Spec.Result(State(), reply) == Spec.IdleLoop(old(State()), t)
    {
      if Ok() && (|queue| > 0 || workersWaiting != |threads|) {
        clientsWaiting := Inc(clientsWaiting);
        ccond := Sleep(ccond, t, Spec.IdleWait);
        return Spec.Asleep;
      }
      return Spec.Returns(Ok());
    }

    method WaitIdle(t: Tid) returns (reply: Spec.Reply<T>)
      requires Spec.Enabled(State(), Spec.WaitIdle(t))
      modifies this
      ensures Spec.Result(State(), reply) == Spec.Apply(old(State()), Spec.WaitIdle(t))
    {
      if !Ok() {
        return Spec.Returns(false);
      }
      reply := IdleLoop(t);
    }

    method ResumeIdle(t: Tid, ghost pick: Tid) returns (reply: Spec.Reply<T>)
      requires Spec.Enabled(State(), Spec.ResumeClient(t, pick)) && ccond.waits[t] == Spec.IdleWait
      modifies this
      ensures Spec.Result(State(), reply) == Spec.Apply(old(State()), Spec.ResumeClient(t, pick))
    {
      ccond := Leave(ccond, t);
      clientsWaiting := Dec(clientsWaiting);
      reply := IdleLoop(t);
    }

    // --- setTerminateAndWait ---

    method TermLoop(t: Tid) returns (reply: Spec.Reply<T>)
      modifies this
      ensures Spec.Result(State(), reply) == Spec.TermLoop(old(State()), t)
    {
      if exited < |threads| {
        wcond := Broadcast(wcond);
        clientsWaiting := Inc(clientsWaiting);
        ccond := Sleep(ccond, t, Spec.TermWait);
        return Spec.Asleep;
      }
      var good := Reset();
      return Spec.Returns(good);
    }

    // Joins the workers and goes back to the start state, but for the queue.
    method Reset() returns (good: bool)
      modifies this`threads, this`failed, this`quit, this`gone, this`takes, this`exited, this`clientsWaiting,
               this`workersWaiting, this`tottasks, this`mOk
      ensures exited == clientsWaiting == workersWaiting == tottasks == takes == 0 && mOk
      ensures quit == gone == failed == threads == {}
      ensures good <==> old(threads !! failed)
    {
      good := Join();
      exited, clientsWaiting, workersWaiting, tottasks := 0, 0, 0, 0;
      mOk := true;
      quit, gone, failed, takes := {}, {}, {}, 0;
    }

    // Joins every worker; answers whether all of them returned a good status.
    method Join() returns (good: bool)
      modifies this`threads
      ensures threads == {}
      ensures good <==> old(threads) !! failed
    {
      good := true;
      while threads != {}
        invariant threads <= old(threads)
        invariant good <==> old(threads) - threads !! failed
        decreases |threads|
      {
        var t :| t in threads;
        if t in failed {
          good := false;
        }
        threads := threads - {t};
      }
      assert old(threads) - {} == old(threads);
    }

    method SetTerminateAndWait(t: Tid) returns (reply: Spec.Reply<T>)
      requires Spec.Enabled(State(), Spec.Terminate(t))
      modifies this
      ensures Spec.Result(State(), reply) == Spec.Apply(old(State()), Spec.Terminate(t))
    {
      if threads == {} {
        return Spec.Returns(false);
      }
      mOk := false;
      reply := TermLoop(t);
    }

    method ResumeTerminate(t: Tid, ghost pick: Tid) returns (reply: Spec.Reply<T>)
      requires Spec.Enabled(State(), Spec.ResumeClient(t, pick)) && ccond.waits[t] == Spec.TermWait
      modifies this
      ensures Spec.Result(State(), reply) == Spec.Apply(old(State()), Spec.ResumeClient(t, pick))
    {
      ccond := Leave(ccond, t);
      clientsWaiting := Dec(clientsWaiting);
      reply := TermLoop(t);
    }

    // --- take and waitminsz ---

    method SleepWorker(t: Tid, ghost wait: Spec.WorkerWait)
      modifies this
      ensures State() == Spec.SleepW(old(State()), t, wait)
    {
      workersWaiting := Inc(workersWaiting);
      if queue == [] {
        ccond := Broadcast(ccond);
      }
      wcond := Sleep(wcond, t, wait);
    }

    method Pop()
      requires queue != []
      modifies this`queue, this`taken, this`fates, this`tottasks, this`takes
      ensures State() == Spec.Pop(old(State()))
    {
      ghost var s1 := Spec.Pop(State());
      tottasks, takes := Inc(tottasks), takes + 1;
      taken, fates := taken + [queue[0]], fates + [Delivered];
      queue := queue[1..];
      assert State().queue == s1.queue && State().taken == s1.taken && State().fates == s1.fates;
    }

    method TakeLoop(t: Tid, ghost pick: Tid) returns (reply: Spec.Reply<T>)
      requires Ok()
      modifies this
      ensures Spec.Result(State(), reply) == Spec.TakeLoop(old(State()), t, pick)
    {
      if Ok() && |queue| < low {
        SleepWorker(t, Spec.TakeWait);
        return Spec.Asleep;
      }
      if queue == [] {
        // The front of an empty queue: nothing is known of what follows
        faulted := true;
        return Spec.Returns(true);
      }
      reply := Spec.Took(queue[0], |queue|);
      Pop();
      if clientsWaiting > 0 {
        ccond := Signal(ccond, pick);
      }
    }

    method Take(t: Tid, ghost pick: Tid) returns (reply: Spec.Reply<T>)
      requires Spec.Enabled(State(), Spec.Take(t, pick))
      modifies this
      ensures Spec.Result(State(), reply) == Spec.Apply(old(State()), Spec.Take(t, pick))
    {
      if !Ok() {
        quit := quit + {t};
        return Spec.Returns(false);
      }
      reply := TakeLoop(t, pick);
    }

    method ResumeTake(t: Tid, ghost pick: Tid) returns (reply: Spec.Reply<T>)
      requires Spec.Enabled(State(), Spec.ResumeWorker(t, pick)) && wcond.waits[t] == Spec.TakeWait
      modifies this
      ensures Spec.Result(State(), reply) == Spec.Apply(old(State()), Spec.ResumeWorker(t, pick))
    {
      wcond := Leave(wcond, t);
      workersWaiting := Dec(workersWaiting);
      if !Ok() {
        quit := quit + {t};
        return Spec.Returns(false);
      }
      reply := TakeLoop(t, pick);
    }

    method MinLoop(t: Tid, sz: nat) returns (reply: Spec.Reply<T>)
      requires Ok()
      modifies this
      ensures Spec.Result(State(), reply) == Spec.MinLoop(old(State()), t, sz)
    {
      if Ok() && |queue| < sz {
        SleepWorker(t, Spec.MinWait(sz));
        return Spec.Asleep;
      }
      return Spec.Returns(true);
    }

    method WaitMinSz(t: Tid, sz: nat) returns (reply: Spec.Reply<T>)
      requires Spec.Enabled(State(), Spec.WaitMinSz(t, sz))
      modifies this
      ensures Spec.Result(State(), reply) == Spec.Apply(old(State()), Spec.WaitMinSz(t, sz))
    {
      if !Ok() {
        quit := quit + {t};
        return Spec.Returns(false);
      }
      reply := MinLoop(t, sz);
    }

    method ResumeMinSz(t: Tid, sz: nat, ghost pick: Tid) returns (reply: Spec.Reply<T>)
      requires Spec.Enabled(State(), Spec.ResumeWorker(t, pick)) && wcond.waits[t] == Spec.MinWait(sz)
      modifies this
      ensures Spec.Result(State(), reply) == Spec.Apply(old(State()), Spec.ResumeWorker(t, pick))
    {
      wcond := Leave(wcond, t);
      workersWaiting := Dec(workersWaiting);
      if !Ok() {
        quit := quit + {t};
        return Spec.Returns(false);
      }
      reply := MinLoop(t, sz);
    }

    // --- workerExit ---

    // status is what the thread function returns next: (void*)1 or (void*)0.
    method WorkerExit(t: Tid, status: bool)
      requires Spec.FreeWorker(State(), t)
      modifies this`exited, this`mOk, this`ccond, this`failed, this`quit, this`gone
      ensures State() == Spec.Exit(old(State()), t, status)
    {
      if !status {
        failed := failed + {t};
      }
      assert failed == Spec.Exit(old(State()), t, status).failed;
      quit, gone := quit - {t}, gone + {t};
      CountExit();
    }

    // Shuts the queue and wakes all clients.
    method CountExit()
      modifies this`exited, this`mOk, this`ccond
      ensures exited == Inc(old(exited)) && !mOk
      ensures ccond.(count := clientsWaiting) == Broadcast(old(ccond.(count := clientsWaiting)))
    {
      exited := Inc(exited);
      mOk := false;
      ccond := Broadcast(ccond);
    }
  }
}
