// A pthread condition variable together with the counter of its waiters that WorkQueue keeps.
module CondVar {

  // unsigned int counters wrap at this modulus.
  const UINT_MOD := 0x1_0000_0000
  const MAX_THREADS := UINT_MOD - 1

  type Tid = t: nat | t < MAX_THREADS

  function Inc(x: nat): nat { (x + 1) % UINT_MOD }

  function Dec(x: nat): nat { if x == 0 then UINT_MOD - 1 else x - 1 }

  // Threads inside pthread_cond_wait: asleep, or woken and waiting for the mutex. waits
  // says what each of them was doing; count is the program's own counter of them.
  datatype Cond<W> = Cond(sleep: set<Tid>, woken: set<Tid>, waits: map<Tid, W>, count: nat)

  ghost function Nobody<W>(): Cond<W> { Cond({}, {}, map[], 0) }

  // The counter is exact.
  ghost predicate Exact<W>(c: Cond<W>) {
    && c.sleep !! c.woken
    && c.waits.Keys == c.sleep + c.woken
    && c.count == |c.waits.Keys|
  }

  ghost function Sleep<W>(c: Cond<W>, t: Tid, w: W): Cond<W> {
    Cond(c.sleep + {t}, c.woken, c.waits[t := w], Inc(c.count))
  }

  ghost function Leave<W>(c: Cond<W>, t: Tid): Cond<W> {
    Cond(c.sleep, c.woken - {t}, c.waits - {t}, Dec(c.count))
  }

  // pick is the sleeper the signal wakes, if there is one.
  ghost function Signal<W>(c: Cond<W>, pick: Tid): Cond<W> {
    if c.sleep == {} then c else c.(sleep := c.sleep - {pick}, woken := c.woken + {pick})
  }

  ghost function Broadcast<W>(c: Cond<W>): Cond<W> {
    c.(sleep := {}, woken := c.woken + c.sleep)
  }

  ghost predicate PickOk<W>(c: Cond<W>, pick: Tid) {
    c.sleep != {} ==> pick in c.sleep
  }

  lemma {:induction false} SetBound(s: set<nat>, n: nat)
    requires forall t | t in s :: t < n
    ensures |s| <= n
    decreases n
  {
    if n == 0 {
      assert s == {};
    } else {
      SetBound(s - {n - 1}, n - 1);
    }
  }

  // There are never enough threads to wrap a counter.
  lemma Threads(s: set<Tid>)
    ensures |s| < UINT_MOD
  {
    SetBound(set t | t in s :: t as nat, MAX_THREADS);
    assert (set t | t in s :: t as nat) == s;
  }

  lemma SleepExact<W>(c: Cond<W>, t: Tid, w: W)
    requires Exact(c) && t !in c.waits
    ensures Exact(Sleep(c, t, w))
    ensures Sleep(c, t, w).waits.Keys == c.waits.Keys + {t}
  {
    var c1 := Sleep(c, t, w);
    assert c1.waits.Keys == c.waits.Keys + {t};
    Threads(c1.waits.Keys);
  }

  lemma LeaveExact<W>(c: Cond<W>, t: Tid)
    requires Exact(c) && t in c.woken
    ensures Exact(Leave(c, t))
    ensures Leave(c, t).waits.Keys == c.waits.Keys - {t}
  {
    assert Leave(c, t).waits.Keys == c.waits.Keys - {t};
  }

  lemma SignalExact<W>(c: Cond<W>, pick: Tid)
    requires Exact(c) && PickOk(c, pick)
    ensures Exact(Signal(c, pick))
  {
  }

  lemma BroadcastExact<W>(c: Cond<W>)
    requires Exact(c)
    ensures Exact(Broadcast(c))
  {
  }
}
