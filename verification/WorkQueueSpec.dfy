// WorkQueue as a transition system. A step is what one thread does while it holds the
// mutex: from taking the lock (at the start of a call, or when pthread_cond_wait hands it
// back) to the next pthread_cond_wait or the return of the call.
module WorkQueueSpec {
  import opened History
  import opened CondVar

  // What a thread inside pthread_cond_wait was doing.
  datatype ClientWait<T> = PutWait(item: T, flush: bool) | IdleWait | TermWait

  datatype WorkerWait = TakeWait | MinWait(sz: nat)

  datatype State<T> = State(
    high: nat,
    low: nat,
    exited: nat,
    mOk: bool,
    threads: set<Tid>,            // m_worker_threads
    queue: seq<T>,
    c: Cond<ClientWait<T>>,       // m_ccond and m_clients_waiting
    w: Cond<WorkerWait>,          // m_wcond and m_workers_waiting
    tottasks: nat,
    // Workers that were told to stop, workers that called workerExit, and those of them
    // whose thread function returns a null status
    quit: set<Tid>,
    gone: set<Tid>,
    failed: set<Tid>,
    // Set when take() reads the front of an empty queue
    faulted: bool,
    // History since construction, and number of takes since the last reset
    accepted: seq<T>,
    taken: seq<T>,
    fates: seq<Fate>,
    takes: nat
  )

  datatype Reply<T> = Asleep | Returns(ok: bool) | Took(item: T, size: nat)

  datatype Result<T> = Result(state: State<T>, reply: Reply<T>)

  // pick is the thread that a signal wakes, when somebody sleeps on the variable.
  datatype Step<T> =
    | Start(workers: set<Tid>)
    | Put(t: Tid, item: T, flush: bool, pick: Tid)
    | WaitIdle(t: Tid)
    | Terminate(t: Tid)
    | Take(t: Tid, pick: Tid)
    | WaitMinSz(t: Tid, sz: nat)
    | WorkerExit(t: Tid, status: bool)
    | ResumeClient(t: Tid, pick: Tid)
    | ResumeWorker(t: Tid, pick: Tid)
    | Spurious(t: Tid)

  ghost function Init<T>(high: nat, low: nat): State<T> {
    State(high, low, 0, true, {}, [], Nobody(), Nobody(), 0, {}, {}, {}, false, [], [], [], 0)
  }

  ghost predicate Live<T>(s: State<T>) {
    s.mOk && s.exited == 0 && s.threads != {}
  }

  // --- client calls ---

  ghost function Flush<T>(s: State<T>): State<T> {
    s.(queue := [], fates := s.fates + seq(|s.queue|, _ => Dropped))
  }

  ghost function Push<T>(s: State<T>, item: T): State<T> {
    s.(queue := s.queue + [item], accepted := s.accepted + [item])
  }

  ghost function PutLoop<T>(s: State<T>, t: Tid, item: T, flush: bool, pick: Tid): Result<T> {
    if s.high > 0 && |s.queue| >= s.high then
      Result(s.(c := Sleep(s.c, t, PutWait(item, flush))), Asleep)
    else
      var s1 := Push(if flush then Flush(s) else s, item);
      Result(if s1.w.count > 0 then s1.(w := Signal(s1.w, pick)) else s1, Returns(true))
  }

  ghost predicate IdleGuard<T>(s: State<T>) {
    |s.queue| > 0 || s.w.count != |s.threads|
  }

  ghost function IdleLoop<T>(s: State<T>, t: Tid): Result<T> {
    if Live(s) && IdleGuard(s) then Result(s.(c := Sleep(s.c, t, IdleWait)), Asleep)
    else Result(s, Returns(Live(s)))
  }

  // Everything the terminator does once every worker has called workerExit. The items
  // still queued stay queued.
  ghost function Reset<T>(s: State<T>): State<T> {
    s.(threads := {}, exited := 0, c := s.c.(count := 0), w := s.w.(count := 0), tottasks := 0, mOk := true,
       quit := {}, gone := {}, failed := {}, takes := 0)
  }

  ghost function TermLoop<T>(s: State<T>, t: Tid): Result<T> {
    if s.exited < |s.threads| then 
      Result(s.(w := Broadcast(s.w), c := Sleep(s.c, t, TermWait)), Asleep)
    else Result(Reset(s), Returns(s.threads !! s.failed))
  }

  // --- worker calls ---

  // A worker going to sleep on an empty queue first wakes all the clients.
  ghost function SleepW<T>(s: State<T>, t: Tid, wait: WorkerWait): State<T> {
    s.(c := if s.queue == [] then Broadcast(s.c) else s.c, w := Sleep(s.w, t, wait))
  }

  ghost function Refuse<T>(s: State<T>, t: Tid): Result<T> {
    Result(s.(quit := s.quit + {t}), Returns(false))
  }

  ghost function Pop<T>(s: State<T>): State<T>
    requires s.queue != []
  {
    s.(queue := s.queue[1..], taken := s.taken + [s.queue[0]], fates := s.fates + [Delivered],
       tottasks := Inc(s.tottasks), takes := s.takes + 1)
  }

  ghost function TakeLoop<T>(s: State<T>, t: Tid, pick: Tid): Result<T> {
    if |s.queue| < s.low then Result(SleepW(s, t, TakeWait), Asleep)
    else if s.queue == [] then Result(s.(faulted := true), Returns(true))
    else
      var s1 := Pop(s);
      Result(if s1.c.count > 0 then s1.(c := Signal(s1.c, pick)) else s1, Took(s.queue[0], |s.queue|))
  }

  ghost function MinLoop<T>(s: State<T>, t: Tid, sz: nat): Result<T> {
    if |s.queue| < sz then Result(SleepW(s, t, MinWait(sz)), Asleep)
    else Result(s, Returns(true))
  }

  ghost function Exit<T>(s: State<T>, t: Tid, status: bool): State<T> {
    s.(c := Broadcast(s.c), exited := Inc(s.exited), mOk := false, gone := s.gone + {t}, quit := s.quit - {t},
       failed := if status then s.failed else s.failed + {t})
  }

  // --- a thread gets the mutex back inside pthread_cond_wait ---

  ghost function ClientWoken<T>(s: State<T>, t: Tid, pick: Tid): Result<T>
    requires t in s.c.waits
  {
    var s1 := s.(c := Leave(s.c, t));
    match s.c.waits[t]
    case PutWait(item, flush) =>
      if !Live(s1) then Result(s1, Returns(false)) else PutLoop(s1, t, item, flush, pick)
    case IdleWait => IdleLoop(s1, t)
    case TermWait => TermLoop(s1, t)
  }

  ghost function WorkerWoken<T>(s: State<T>, t: Tid, pick: Tid): Result<T>
    requires t in s.w.waits
  {
    var s1 := s.(w := Leave(s.w, t));
    if !Live(s1) then Refuse(s1, t)
    else match s.w.waits[t]
      case TakeWait => TakeLoop(s1, t, pick)
      case MinWait(sz) => MinLoop(s1, t, sz)
  }

  ghost function Wake<T>(s: State<T>, t: Tid): State<T> {
    if t in s.c.sleep then s.(c := Signal(s.c, t)) else s.(w := Signal(s.w, t))
  }

  // --- steps ---

  ghost predicate FreeClient<T>(s: State<T>, t: Tid) {
    t !in s.threads && t !in s.c.waits
  }

  ghost predicate FreeWorker<T>(s: State<T>, t: Tid) {
    t in s.threads && t !in s.w.waits && t !in s.gone
  }

  ghost predicate Enabled<T>(s: State<T>, step: Step<T>) {
    match step
    case Start(ws) => ws !! s.threads && ws !! s.c.waits.Keys
    case Put(t, _, _, pick) => FreeClient(s, t) && PickOk(s.w, pick)
    case WaitIdle(t) => FreeClient(s, t)
    case Terminate(t) => FreeClient(s, t)
    case Take(t, pick) => FreeWorker(s, t) && t !in s.quit && PickOk(s.c, pick)
    case WaitMinSz(t, _) => FreeWorker(s, t) && t !in s.quit
    case WorkerExit(t, _) => FreeWorker(s, t)
    case ResumeClient(t, pick) => t in s.c.woken && t in s.c.waits && PickOk(s.w, pick)
    case ResumeWorker(t, pick) => t in s.w.woken && t in s.w.waits && PickOk(s.c, pick)
    case Spurious(t) => t in s.c.sleep + s.w.sleep
  }

  ghost function Apply<T>(s: State<T>, step: Step<T>): Result<T>
    requires Enabled(s, step)
  {
    match step
    case Start(ws) => Result(s.(threads := s.threads + ws), Returns(true))
    case Put(t, item, flush, pick) =>
      if !Live(s) then Result(s, Returns(false)) else PutLoop(s, t, item, flush, pick)
    case WaitIdle(t) =>
      if !Live(s) then Result(s, Returns(false)) else IdleLoop(s, t)
    case Terminate(t) =>
      if s.threads == {} then Result(s, Returns(false)) else TermLoop(s.(mOk := false), t)
    case Take(t, pick) =>
      if !Live(s) then Refuse(s, t) else TakeLoop(s, t, pick)
    case WaitMinSz(t, sz) =>
      if !Live(s) then Refuse(s, t) else MinLoop(s, t, sz)
    case WorkerExit(t, status) => Result(Exit(s, t, status), Returns(true))
    case ResumeClient(t, pick) => ClientWoken(s, t, pick)
    case ResumeWorker(t, pick) => WorkerWoken(s, t, pick)
    case Spurious(t) => Result(Wake(s, t), Asleep)
  }

  // --- runs ---

  // Which calls a program makes: put with flushprevious, waitIdle, waitminsz up to some size,
  // whether it starts more than one worker, and whether setTerminateAndWait may reach its reset
  // while other clients are inside a call.
  datatype Policy = Policy(flush: bool, idle: bool, minsz: nat, many: bool, crowd: bool)

  ghost predicate Allowed<T>(p: Policy, s: State<T>, step: Step<T>) {
    && Enabled(s, step)
    && (step.Put? && step.flush ==> p.flush)
    && (step.WaitIdle? ==> p.idle)
    && (step.WaitMinSz? ==> step.sz <= p.minsz)
    && (step.Start? && !p.many ==> |s.threads + step.workers| <= 1)
    && (Resets(s, step) && !p.crowd ==> s.c.waits.Keys <= {step.t})
  }

  // The steps in which a terminator finds that every worker has left.
  ghost predicate Resets<T>(s: State<T>, step: Step<T>) {
    && s.exited >= |s.threads|
    && match step
       case Terminate(_) => s.threads != {}
       case ResumeClient(t, _) => t in s.c.waits && s.c.waits[t].TermWait?
       case _ => false
  }

  ghost predicate Run<T>(p: Policy, s: State<T>, steps: seq<Step<T>>)
    decreases |steps|, 0
  {
    steps == [] ||
    var most := steps[..|steps| - 1];
    Run(p, s, most) && Allowed(p, Exec(p, s, most), steps[|steps| - 1])
  }

  // The state that the steps lead to.
  ghost function Exec<T>(p: Policy, s: State<T>, steps: seq<Step<T>>): State<T>
    requires Run(p, s, steps)
    decreases |steps|, 1
  {
    if steps == [] then s
    else Apply(Exec(p, s, steps[..|steps| - 1]), steps[|steps| - 1]).state
  }
}
